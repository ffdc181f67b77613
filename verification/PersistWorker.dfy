// The persist worker as the program runs it: an object with a buffer of pushes, transactions on the
// shared tables, and frames whose ids are filled in in place. Every method is proved against the
// functions of PersistSpec.
module PersistWorker {
  import opened Wrappers
  import opened Chat
  import opened Tables
  import opened PersistSpec

  /** The database. A transaction works on a copy of `db` and commits by assigning it back. */
  class Store {
    var db: Db

    constructor (db: Db)
      ensures this.db == db
    {
      this.db := db;
    }

    /** Find or create the conversation of two users, in one transaction. */
    method EnsureSingleTx(a: Uid, b: Uid, drawn: ConvId) returns (r: Ensured)
      modifies this
      ensures r == EnsureSingle(old(db), a, b, drawn)
      ensures db == if r.Opened? then r.db else old(db)
    {
      if a == b {
        return SamePerson;
      }
      var tx := db;
      var key := SingleKey(a, b);
      if key in tx.singles {
        return Found(tx.singles[key]);
      }
      if drawn in tx.convs {
        return Clash;
      }
      tx := tx.(convs := tx.convs[drawn := Conversation(false, [a, b], 0)],
                singles := tx.singles[key := drawn]);
      for i := 0 to 2
        invariant tx == old(db).(
          convs := old(db).convs[drawn := Conversation(false, [a, b], 0)],
          singles := old(db).singles[key := drawn],
          convMembers := old(db).convMembers + (if i > 0 then {(drawn, a)} else {})
            + (if i > 1 then {(drawn, b)} else {}))
        invariant i > 0 ==> (drawn, a) !in old(db).convMembers
        invariant i > 1 ==> (drawn, b) !in old(db).convMembers
        invariant db == old(db)
      {
        var uid := [a, b][i];
        if (drawn, uid) in tx.convMembers {
          return Clash;
        }
        tx := tx.(convMembers := tx.convMembers + {(drawn, uid)});
      }
      assert {(drawn, a)} + {(drawn, b)} == {(drawn, a), (drawn, b)};
      assert tx.convMembers == old(db).convMembers + {(drawn, a), (drawn, b)};
      db := tx;
      r := Opened(tx, drawn);
    }

    /** The members of a group that have not left. */
    method ActiveMembers(g: ConvId) returns (ms: seq<Member>)
      ensures ms == ActiveOf(Roster(db, g))
    {
      ms := ActiveOf(Roster(db, g));
    }
  }

  /** SELECT ... WHERE left_at IS NULL */
  function ActiveOf(ms: seq<Member>): seq<Member> {
    if ms == [] then []
    else
      var k := |ms| - 1;
      ActiveOf(ms[..k]) + if ms[k].left then [] else [ms[k]]
  }

  lemma {:induction false} ActiveOfViews(ms: seq<Member>, u: Uid)
    ensures ActiveUids(ActiveOf(ms)) == ActiveUids(ms)
    ensures ActiveRole(ActiveOf(ms), u) == ActiveRole(ms, u)
    ensures forall m :: m in ActiveOf(ms) ==> !m.left
  {
    if ms != [] {
      var k := |ms| - 1;
      ActiveOfViews(ms[..k], u);
      if !ms[k].left {
        assert ActiveOf(ms)[..|ActiveOf(ms)| - 1] == ActiveOf(ms[..k]);
      } else {
        assert ActiveOf(ms) == ActiveOf(ms[..k]);
      }
    }
  }

  lemma {:induction false} ActiveSnoc(ms: seq<Member>, m: Member, u: Uid)
    requires !m.left
    ensures ActiveUids(ms + [m]) == ActiveUids(ms) + [m.uid]
    ensures ActiveRole(ms + [m], u) == if m.uid == u then Some(m.role) else ActiveRole(ms, u)
  {
    assert (ms + [m])[..|ms|] == ms;
  }

  class Worker {
    const store: Store
    var collecting: bool
    var pending: seq<Push>
    var topic: seq<Push>  // the chat.push log

    constructor (store: Store)
      ensures this.store == store && !collecting && pending == [] && topic == []
    {
      this.store := store;
      collecting := false;
      pending, topic := [], [];
    }

    /** The pushes handed out so far, buffered or written. */
    ghost function Emitted(): seq<Push>
      reads this
    {
      topic + pending
    }

    ghost predicate Valid()
      reads this
    {
      !collecting ==> pending == []
    }

    /** Buffer the push during a batch, write it at once otherwise. */
    method ProducePush(m: Msg, n: int, to: Uid, mention: bool)
      requires Valid()
      modifies this
      ensures Valid() && collecting == old(collecting)
      ensures Emitted() == old(Emitted()) + [PushFor(m, n, to, mention)]
      ensures collecting ==> topic == old(topic)
    {
      var p := Push(m.id, m.cliId, m.convId, n, m.fromUid, to, m.kind, m.content, mention);
      if collecting {
        pending := pending + [p];
      } else {
        topic := topic + [p];
      }
    }

    /** Write the buffer out and empty it. `reached` are the positions of the records that have got to the
        log when the write returns an error; None is a write that succeeds. */
    method FlushPushes(reached: Option<set<nat>>) returns (ok: bool)
      requires Valid()
      modifies this
      ensures Valid() && collecting == old(collecting) && pending == []
      ensures ok <==> old(pending) == [] || reached == None
      ensures topic == if ok then old(Emitted()) else old(topic) + Chosen(old(pending), reached.value)
    {
      if |pending| == 0 {
        return true;
      }
      if reached.Some? {
        topic, pending := topic + Chosen(pending, reached.value), [];
        return false;
      }
      topic := topic + pending;
      pending := [];
      ok := true;
    }

    method PersistTransaction(m: Msg) returns (r: Stored)
      modifies store
      ensures r == PersistTx(old(store.db), m)
      ensures store.db == if r.Created? then r.db else old(store.db)
    {
      var tx := store.db;
      if m.id in tx.messages {
        return Replayed(tx.messages[m.id].seqNo, tx.messages[m.id].content);
      }
      var n := Counter(tx, m.convId) + 1;
      tx := tx.(counters := tx.counters[m.convId := n]);
      if Numbered(tx, m.convId, n) {
        assert Numbered(store.db, m.convId, n);
        return Violation;
      }
      tx := tx.(messages := tx.messages[m.id := Row(m.convId, n, m.fromUid, m.kind, m.content)]);
      if m.convId in tx.convs && tx.convs[m.convId].lastSeq < n {
        tx := tx.(convs := tx.convs[m.convId := tx.convs[m.convId].(lastSeq := n)]);
      }
      assert tx == Append(store.db, m.id, m.convId, m.fromUid, m.kind, m.content);
      store.db := tx;
      r := Created(tx, n);
    }

    /** The check of a single-chat frame; it fills in the conversation. */
    method CheckSingle(m: Msg) returns (m': Msg, status: Status)
      modifies store
      ensures match ValidateSingle(old(store.db), m)
              case Pass(d, m1) => store.db == d && m' == m1 && status == Accepted
              case Reject => store.db == old(store.db) && m' == m && status == Poison
              case Broken => store.db == old(store.db) && m' == m && status == Fault
    {
      m', status := m, Accepted;
      if m.fromUid !in store.db.users {
        return m, Poison;
      }
      if m.toUid !in store.db.users {
        return m, Poison;
      }
      if m.convId == "" {
        var e := store.EnsureSingleTx(m.fromUid, m.toUid, m.newConv);
        match e {
          case Found(c) => m' := m.(convId := c);
          case Opened(_, c) => m' := m.(convId := c);
          case SamePerson => status := Fault;
          case Clash => status := Fault;
        }
        return;
      }
      if m.convId !in store.db.convs {
        return m, Poison;
      }
      if (m.convId, m.fromUid) !in store.db.convMembers {
        return m, Poison;
      }
    }

    /** The check of a group frame; it gives the members as push targets. */
    method CheckGroup(m: Msg) returns (targets: seq<Uid>, ok: bool)
      ensures ok <==> GroupAccepts(store.db, m)
      ensures ok ==> targets == ActiveUids(Roster(store.db, m.convId))
    {
      targets, ok := [], false;
      if m.convId == "" || m.convId !in store.db.groups {
        return;
      }
      if store.db.groups[m.convId].status != Active {
        return;
      }
      var members := store.ActiveMembers(m.convId);
      ActiveOfViews(Roster(store.db, m.convId), m.fromUid);
      var senderRole, active;
      senderRole, active, targets := ScanMembers(members, m.fromUid);
      if senderRole == None {
        return;
      }
      if m.mentionAll && senderRole != Some(Owner) {
        return;
      }
      for i := 0 to |m.mentions|
        invariant forall j :: 0 <= j < i ==> m.mentions[j] in active
      {
        if m.mentions[i] !in active {
          return;
        }
      }
      ok := true;
    }

    /** One pass over the members: the sender's role, the set of their uids, and the push targets. */
    method ScanMembers(members: seq<Member>, from: Uid)
      returns (senderRole: Option<Role>, active: set<Uid>, targets: seq<Uid>)
      requires forall m :: m in members ==> !m.left
      ensures senderRole == ActiveRole(members, from) && targets == ActiveUids(members)
      ensures forall u :: u in active <==> u in targets
    {
      senderRole, active, targets := None, {}, [];
      for i := 0 to |members|
        invariant targets == ActiveUids(members[..i])
        invariant senderRole == ActiveRole(members[..i], from)
        invariant forall u :: u in active <==> u in targets
      {
        assert members[..i + 1] == members[..i] + [members[i]];
        ActiveSnoc(members[..i], members[i], from);
        if members[i].uid == from {
          senderRole := Some(members[i].role);
        }
        active := active + {members[i].uid};
        targets := targets + [members[i].uid];
      }
      assert members[..|members|] == members;
    }

    /** The targets with an online record, in order. */
    method OnlineMembers(targets: seq<Uid>) returns (online: seq<Uid>)
      ensures online == Online(store.db, targets)
    {
      var keys: set<Uid> := {};
      for i := 0 to |targets|
        invariant keys == set u | u in targets[..i]
      {
        assert targets[..i + 1] == targets[..i] + [targets[i]];
        keys := keys + {targets[i]};
      }
      assert targets[..|targets|] == targets;
      var found := map u | u in keys && u in store.db.online :: store.db.online[u];
      online := [];
      for i := 0 to |targets|
        invariant online == Online(store.db, targets[..i])
      {
        assert targets[..i + 1][..i] == targets[..i];
        if targets[i] in found {
          online := online + [targets[i]];
        }
      }
      assert targets[..|targets|] == targets;
    }

    /** Handle one frame, filling in its conversation, its id and, for a replay, its stored content. */
    method HandleFrame(msgs: array<Msg>, at: nat) returns (status: Status)
      requires Valid() && at < msgs.Length
      modifies this, store, msgs
      ensures Valid() && collecting == old(collecting) && (collecting ==> topic == old(topic))
      ensures var h := Handle(old(store.db), old(msgs[at]));
        && store.db == h.db && status == h.status
        && msgs[..] == old(msgs[..])[at := h.msg]
        && Emitted() == old(Emitted()) + h.pushes
    {
      var m := msgs[at];
      if m.kind == Unset {
        m := m.(kind := Single);
      }
      msgs[at] := m;
      var targets: seq<Uid> := [];
      match m.kind {
        case SystemEvent =>
          if m.id == NoId || m.convId == "" {
            return Poison;
          }
          var members := store.ActiveMembers(m.convId);
          ActiveOfViews(Roster(store.db, m.convId), "");
          targets := ActiveUids(members);
        case Group =>
          var ok;
          targets, ok := CheckGroup(m);
          if !ok {
            return Poison;
          }
        case Single =>
          m, status := CheckSingle(m);
          msgs[at] := m;
          if status != Accepted {
            return;
          }
        case _ =>
          return Poison;
      }
      status := StoreFrame(msgs, at, targets);
    }

    method StoreFrame(msgs: array<Msg>, at: nat, targets: seq<Uid>) returns (status: Status)
      requires Valid() && at < msgs.Length
      modifies this, store, msgs
      ensures Valid() && collecting == old(collecting) && (collecting ==> topic == old(topic))
      ensures var h := StoreAndPush(old(store.db), old(msgs[at]), targets);
        && store.db == h.db && status == h.status
        && msgs[..] == old(msgs[..])[at := h.msg]
        && Emitted() == old(Emitted()) + h.pushes
    {
      var m := msgs[at];
      if m.id == NoId {
        m := m.(id := DeriveId(m));
      }
      msgs[at] := m;
      var n: int;
      var r := PersistTransaction(m);
      match r {
        case Violation =>
          return Fault;
        case Created(_, k) =>
          n := k;
        case Replayed(k, content) =>
          n := k;
          m := m.(content := content);
          msgs[at] := m;
      }
      PushAll(m, n, targets);
      status := Accepted;
    }

    /** Fan the frame out: to its receiver, or to the online ones among the targets. */
    method PushAll(m: Msg, n: int, targets: seq<Uid>)
      requires Valid()
      modifies this
      ensures Valid() && collecting == old(collecting) && (collecting ==> topic == old(topic))
      ensures Emitted() == old(Emitted()) + Pushes(store.db, m, n, targets)
    {
      if m.kind == Single {
        ProducePush(m, n, m.toUid, false);
        return;
      }
      var online := OnlineMembers(targets);
      for i := 0 to |online|
        invariant Valid() && collecting == old(collecting) && (collecting ==> topic == old(topic))
        invariant Emitted() == old(Emitted()) + Mentioned(m, n, online[..i])
      {
        assert online[..i + 1][..i] == online[..i];
        ProducePush(m, n, online[i], m.mentionAll || online[i] in m.mentions);
      }
      assert online[..|online|] == online;
      FanoutIsMentioned(store.db, m, n, targets);
    }
  }

  /** The pushes at these positions, in order. */
  function Chosen(pushes: seq<Push>, which: set<nat>): seq<Push> {
    if pushes == [] then []
    else
      var k := |pushes| - 1;
      Chosen(pushes[..k], which) + if k in which then [pushes[k]] else []
  }

  function Online(db: Db, targets: seq<Uid>): seq<Uid> {
    if targets == [] then []
    else
      var k := |targets| - 1;
      Online(db, targets[..k]) + if targets[k] in db.online then [targets[k]] else []
  }

  function Mentioned(m: Msg, n: int, online: seq<Uid>): seq<Push> {
    if online == [] then []
    else
      var k := |online| - 1;
      Mentioned(m, n, online[..k]) + [PushFor(m, n, online[k], m.mentionAll || online[k] in m.mentions)]
  }

  lemma {:induction false} FanoutIsMentioned(db: Db, m: Msg, n: int, targets: seq<Uid>)
    ensures Fanout(db, m, n, targets) == Mentioned(m, n, Online(db, targets))
  {
    if targets != [] {
      var k := |targets| - 1;
      FanoutIsMentioned(db, m, n, targets[..k]);
      var before, all := Online(db, targets[..k]), Online(db, targets);
      if targets[k] in db.online {
        assert all[..|all| - 1] == before;
      } else {
        assert all == before;
      }
    }
  }
}
