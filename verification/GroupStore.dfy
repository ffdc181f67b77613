// Group management as the program runs it: transactions on the shared tables, statement by statement,
// proved against the functions of GroupSpec.
module GroupStore {
  import opened Wrappers
  import opened Chat
  import opened Tables
  import opened PersistSpec
  import opened GroupSpec
  import opened PersistWorker

  /** What a caller sees of a transaction: the id of the event, or an error. */
  datatype Reply = Event(id: Id) | Error(error: GroupError)

  function ReplyOf(r: GroupOut): Reply {
    match r
    case Ok(_, id) => Event(id)
    case Refused(e) => Error(e)
  }

  /** The tables after a transaction that commits when it succeeds and rolls back otherwise. */
  function TablesAfter(db: Db, r: GroupOut): Db {
    if r.Ok? then r.db else db
  }

  /** The outcome of the statements of a transaction, before its commit. */
  datatype Tx = Tx(db: Db, error: Option<GroupError>)

  // ---------------------------------------------------------------- one more member

  lemma {:induction false} OwnerAlone(owner: Uid, members: seq<Uid>)
    ensures OwnerFirst(owner, members[..0]) == [owner]
    ensures NewRoster(owner, [owner]) == [Member(owner, Owner, false)]
    ensures !HasDuplicates([owner])
  {
  }

  lemma {:induction false} OwnerFirstStep(owner: Uid, members: seq<Uid>, k: nat)
    requires k < |members|
    ensures OwnerFirst(owner, members[..k + 1]) ==
      OwnerFirst(owner, members[..k]) + if members[k] == owner then [] else [members[k]]
  {
    assert members[..k + 1][..k] == members[..k];
  }

  lemma {:induction false} NewRosterSnoc(owner: Uid, all: seq<Uid>, u: Uid)
    requires u != owner
    ensures NewRoster(owner, all + [u]) == NewRoster(owner, all) + [Member(u, Ordinary, false)]
  {
    assert (all + [u])[..|all|] == all;
  }

  lemma DuplicatesSnoc(us: seq<Uid>, u: Uid)
    requires !HasDuplicates(us)
    ensures HasDuplicates(us + [u]) <==> u in us
  {
    if u in us {
      var i :| 0 <= i < |us| && us[i] == u;
      assert (us + [u])[i] == (us + [u])[|us|];
    }
  }

  lemma DuplicatesStay(us: seq<Uid>, all: seq<Uid>)
    requires HasDuplicates(us) && us <= all
    ensures HasDuplicates(all)
  {
    var i, j :| 0 <= i < j < |us| && us[i] == us[j];
    assert all[i] == all[j];
  }

  class GroupStore {
    const store: Store

    constructor (store: Store)
      ensures this.store == store
    {
      this.store := store;
    }

    /** Take the next number of the group, insert the event row under it, raise last_seq. */
    method InsertSystemEvent(tx: Db, g: ConvId, actor: Uid, note: Content, draw: nat) returns (r: GroupOut)
      ensures r == InsertEvent(tx, g, actor, note, draw)
    {
      hide Numbered;
      var n := 1;
      if g in tx.counters {
        n := tx.counters[g] + 1;
      }
      var d := tx.(counters := tx.counters[g := n]);
      if Drawn(draw) in d.messages {
        return Refused(Violated);
      }
      var taken := NumberTaken(tx, g, n);
      if taken {
        return Refused(Violated);
      }
      d := d.(messages := d.messages[Drawn(draw) := Row(g, n, actor, SystemEvent, note)]);
      if g in d.convs && d.convs[g].lastSeq < n {
        d := d.(convs := d.convs[g := d.convs[g].(lastSeq := n)]);
      }
      r := Ok(d, Drawn(draw));
    }

    /** The unique index (conv_id, seq). */
    method NumberTaken(tx: Db, g: ConvId, n: int) returns (taken: bool)
      ensures taken == Numbered(tx, g, n)
    {
      var left := tx.messages.Keys;
      while left != {}
        invariant left <= tx.messages.Keys
        invariant forall id :: id in tx.messages && id !in left ==>
          !(tx.messages[id].convId == g && tx.messages[id].seqNo == n)
        decreases |left|
      {
        var id :| id in left;
        if tx.messages[id].convId == g && tx.messages[id].seqNo == n {
          return true;
        }
        left := left - {id};
      }
      taken := false;
    }

    method CreateGroup(g: ConvId, owner: Uid, name: string, members: seq<Uid>, note: Content, draw: nat)
      returns (reply: Reply)
      modifies store
      ensures var r := GroupSpec.CreateGroup(old(store.db), g, owner, name, members, note, draw);
        reply == ReplyOf(r) && store.db == TablesAfter(old(store.db), r)
    {
      hide OwnerFirst, NewRoster, HasDuplicates, InsertEvent;
      if owner == "" || name == "" {
        return Error(BadTarget);
      }
      var tx := store.db;
      if g in tx.groups {
        return Error(Violated);
      }
      tx := tx.(groups := tx.groups[g := GroupRow(name, "", owner, None, GroupStatus.Active, |members| + 1)]);
      if g in tx.roster {
        return Error(Violated);
      }
      var all, rows, ok := InsertMembers(owner, members);
      if !ok {
        return Error(Violated);
      }
      tx := tx.(roster := tx.roster[g := rows]);
      if g in tx.convs {
        return Error(Violated);
      }
      tx := tx.(convs := tx.convs[g := Conversation(true, all, 0)]);
      var pairs := JoinConversation(tx.convMembers, g, all);
      tx := tx.(convMembers := pairs);
      var out := InsertSystemEvent(tx, g, owner, note, draw);
      match out {
        case Refused(e) => return Error(e);
        case Ok(d, id) =>
          store.db := d;
          reply := Event(id);
      }
    }

    method JoinConversation(pairs: set<(ConvId, Uid)>, g: ConvId, uids: seq<Uid>)
      returns (after: set<(ConvId, Uid)>)
      ensures after == pairs + set u | u in uids :: (g, u)
    {
      after := pairs;
      for i := 0 to |uids|
        invariant after == pairs + set u | u in uids[..i] :: (g, u)
      {
        assert uids[..i + 1] == uids[..i] + [uids[i]];
        after := after + {(g, uids[i])};
      }
      assert uids[..|uids|] == uids;
    }

    /** The owner's row, then a row for every other member; the primary key forbids a second row for
        the same user. */
    method InsertMembers(owner: Uid, members: seq<Uid>)
      returns (all: seq<Uid>, rows: seq<Member>, ok: bool)
      ensures ok == !HasDuplicates(OwnerFirst(owner, members))
      ensures ok ==> all == OwnerFirst(owner, members) && rows == NewRoster(owner, all)
    {
      all, rows := [owner], [Member(owner, Owner, false)];
      hide OwnerFirst, NewRoster, HasDuplicates;
      OwnerAlone(owner, members);
      for i := 0 to |members|
        invariant all == OwnerFirst(owner, members[..i]) && rows == NewRoster(owner, all)
        invariant !HasDuplicates(all)
      {
        OwnerFirstStep(owner, members, i);
        var u := members[i];
        if u != owner {
          DuplicatesSnoc(all, u);
          if u in all {
            OwnerFirstPrefix(owner, members, i + 1);
            DuplicatesStay(all + [u], OwnerFirst(owner, members));
            return all, rows, false;
          }
          NewRosterSnoc(owner, all, u);
          all, rows := all + [u], rows + [Member(u, Ordinary, false)];
        }
      }
      assert members[..|members|] == members;
      ok := true;
    }

    method AddMembers(g: ConvId, operator: Uid, uids: seq<Uid>, note: Content, draw: nat) returns (reply: Reply)
      modifies store
      ensures var r := Manage(old(store.db), g, operator, Change.AddMembers(uids), note, draw);
        reply == ReplyOf(r) && store.db == TablesAfter(old(store.db), r)
    {
      if uids == [] {
        return Error(BadTarget);
      }
      reply := MutateAsOwner(g, operator, Change.AddMembers(uids), note, draw);
    }

    method RemoveMember(g: ConvId, operator: Uid, target: Uid, note: Content, draw: nat) returns (reply: Reply)
      modifies store
      ensures var r := Manage(old(store.db), g, operator, Change.RemoveMember(target), note, draw);
        reply == ReplyOf(r) && store.db == TablesAfter(old(store.db), r)
    {
      if g !in store.db.groups {
        return Error(NotFound);
      }
      if store.db.groups[g].owner == target {
        return Error(BadTarget);
      }
      reply := MutateAsOwner(g, operator, Change.RemoveMember(target), note, draw);
    }

    method Rename(g: ConvId, operator: Uid, name: string, note: Content, draw: nat) returns (reply: Reply)
      modifies store
      ensures var r := Manage(old(store.db), g, operator, Change.Rename(name), note, draw);
        reply == ReplyOf(r) && store.db == TablesAfter(old(store.db), r)
    {
      if name == "" {
        return Error(BadTarget);
      }
      reply := MutateAsOwner(g, operator, Change.Rename(name), note, draw);
    }

    /** The common frame of the owner's operations: the group is alive, the operator owns it, the
        change goes through, the event is written; otherwise nothing happens. */
    method MutateAsOwner(g: ConvId, operator: Uid, change: Change, note: Content, draw: nat) returns (reply: Reply)
      requires Precheck(store.db, g, change).None?
      modifies store
      ensures var r := Manage(old(store.db), g, operator, change, note, draw);
        reply == ReplyOf(r) && store.db == TablesAfter(old(store.db), r)
    {
      var tx := store.db;
      if g !in tx.groups {
        return Error(NotFound);
      }
      if tx.groups[g].status == Dismissed {
        return Error(GroupDismissed);
      }
      if tx.groups[g].owner != operator {
        return Error(NotOwner);
      }
      var changed := RunChange(tx, g, change);
      if changed.error.Some? {
        return Error(changed.error.value);
      }
      var out := InsertSystemEvent(changed.db, g, operator, note, draw);
      match out {
        case Refused(e) => return Error(e);
        case Ok(d, id) =>
          store.db := d;
          reply := Event(id);
      }
    }

    method RunChange(tx: Db, g: ConvId, change: Change) returns (r: Tx)
      requires g in tx.groups
      ensures ApplyChange(tx, g, change) == if r.error.None? then Done(r.db) else Rejected(r.error.value)
    {
      match change {
        case AddMembers(uids) => r := InsertNewcomers(tx, g, uids);
        case RemoveMember(target) => r := DropMember(tx, g, target);
        case Rename(name) =>
          r := Tx(tx.(groups := tx.groups[g := tx.groups[g].(name := name)]), None);
        case SetAnnouncement(text) =>
          r := Tx(tx.(groups := tx.groups[g := tx.groups[g].(announcement := text)]), None);
        case SetPin(id) =>
          var pin := None;
          if id != NoId {
            pin := Some(id);
          }
          r := Tx(tx.(groups := tx.groups[g := tx.groups[g].(pinned := pin)]), None);
        case Dismiss =>
          r := Tx(tx.(groups := tx.groups[g := tx.groups[g].(status := Dismissed)]), None);
      }
    }

    /** Count the active members, leave out the uids that are among them, refuse to grow beyond the
        limit, insert or revive the rest. */
    method InsertNewcomers(tx: Db, g: ConvId, uids: seq<Uid>) returns (r: Tx)
      requires g in tx.groups
      ensures ApplyChange(tx, g, Change.AddMembers(uids)) ==
        if r.error.None? then Done(r.db) else Rejected(r.error.value)
    {
      hide Rejoin, ActiveUids;
      var ms := Roster(tx, g);
      var active := |ActiveUids(ms)|;
      var news: seq<Uid> := [];
      for i := 0 to |uids|
        invariant news == Newcomers(ms, uids[..i])
      {
        assert uids[..i + 1][..i] == uids[..i];
        if uids[i] !in ActiveUids(ms) {
          news := news + [uids[i]];
        }
      }
      assert uids[..|uids|] == uids;
      if active + |news| > GROUP_MAX_MEMBERS {
        return Tx(tx, Some(GroupFull));
      }
      var rows := ms;
      for i := 0 to |news|
        invariant rows == RejoinAll(ms, news[..i])
      {
        assert news[..i + 1][..i] == news[..i];
        rows := Rejoin(rows, news[i]);
      }
      assert news[..|news|] == news;
      var pairs := JoinConversation(tx.convMembers, g, news);
      r := Tx(Recount(tx.(roster := tx.roster[g := rows], convMembers := pairs), g), None);
    }

    /** UPDATE ... WHERE left_at IS NULL, which has to hit a row. */
    method DropMember(tx: Db, g: ConvId, target: Uid) returns (r: Tx)
      requires g in tx.groups
      ensures ApplyChange(tx, g, Change.RemoveMember(target)) ==
        if r.error.None? then Done(r.db) else Rejected(r.error.value)
    {
      if target !in ActiveUids(Roster(tx, g)) {
        return Tx(tx, Some(BadTarget));
      }
      var d := tx.(roster := tx.roster[g := MarkLeft(Roster(tx, g), target)]);
      d := Recount(d, g);
      r := Tx(d.(convMembers := d.convMembers - {(g, target)}), None);
    }

    method Quit(g: ConvId, u: Uid, note: Content, draw: nat) returns (reply: Reply)
      modifies store
      ensures var r := GroupSpec.Quit(old(store.db), g, u, note, draw);
        reply == ReplyOf(r) && store.db == TablesAfter(old(store.db), r)
    {
      hide ActiveUids, ActiveRole, MarkLeft, InsertEvent;
      var tx := store.db;
      var ms := Roster(tx, g);
      if g !in tx.groups || u !in ActiveUids(ms) {
        return Error(NotFound);
      }
      if tx.groups[g].status == Dismissed {
        return Error(GroupDismissed);
      }
      if ActiveRole(ms, u) == Some(Owner) {
        return Error(OwnerCantQuit);
      }
      var d := tx.(roster := tx.roster[g := MarkLeft(ms, u)]);
      d := Recount(d, g);
      d := d.(convMembers := d.convMembers - {(g, u)});
      var out := InsertSystemEvent(d, g, u, note, draw);
      match out {
        case Refused(e) => return Error(e);
        case Ok(after, id) =>
          store.db := after;
          reply := Event(id);
      }
    }
  }

  lemma {:induction false} OwnerFirstPrefix(owner: Uid, members: seq<Uid>, k: nat)
    requires k <= |members|
    ensures OwnerFirst(owner, members[..k]) <= OwnerFirst(owner, members)
    decreases |members| - k
  {
    if k < |members| {
      OwnerFirstPrefix(owner, members, k + 1);
      assert members[..k + 1][..k] == members[..k];
    } else {
      assert members[..k] == members;
    }
  }
}
