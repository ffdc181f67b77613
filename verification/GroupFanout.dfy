// Who hears of a group message: the meaning of the checks and of the fan-out, in terms of the members
// of the conversation and the online records.
module GroupFanout {
  import opened Wrappers
  import opened Chat
  import opened Tables
  import opened PersistSpec
  import opened PersistInvariants
  import opened GroupSpec
  import opened GroupInvariants

  /** The checks in terms of the group: it is there and not dismissed, the sender and everybody
      mentioned are members of its conversation, and only the owner mentions all. */
  lemma AcceptedMeans(db: Db, m: Msg)
    requires GroupInv(db) && m.convId != ""
    ensures GroupAccepts(db, m) <==>
      && m.convId in db.groups && db.groups[m.convId].status == GroupStatus.Active
      && (m.convId, m.fromUid) in db.convMembers
      && (m.mentionAll ==> m.fromUid == db.groups[m.convId].owner)
      && (forall u :: u in m.mentions ==> (m.convId, u) in db.convMembers)
  {
    hide Keyed, FindMember, ActiveUids, ActiveRole;
    if m.convId in db.groups {
      assert GroupOk(db, m.convId);
      MembersAreActive(db, m.convId, m.fromUid);
      forall u | u in m.mentions
        ensures u in ActiveUids(Roster(db, m.convId)) <==> (m.convId, u) in db.convMembers
      {
        MembersAreActive(db, m.convId, u);
      }
    }
  }

  lemma {:induction false} MembersAreActive(db: Db, g: ConvId, u: Uid)
    requires g in db.groups && GroupOk(db, g)
    ensures u in ActiveUids(Roster(db, g)) <==> (g, u) in db.convMembers
    ensures ActiveRole(Roster(db, g), u) == None <==> (g, u) !in db.convMembers
    ensures ActiveRole(Roster(db, g), u) == Some(Owner) <==> u == db.groups[g].owner
  {
    hide Keyed, FindMember, ActiveUids, ActiveRole;
    ActiveMeans(Roster(db, g), u);
  }

  predicate Distinct(us: seq<Uid>) {
    forall i, j :: 0 <= i < j < |us| ==> us[i] != us[j]
  }

  lemma {:induction false} ActiveUidsDistinct(ms: seq<Member>)
    requires Keyed(ms)
    ensures Distinct(ActiveUids(ms))
  {
    if ms != [] {
      var k := |ms| - 1;
      ActiveUidsDistinct(ms[..k]);
      ActiveMeans(ms[..k], ms[k].uid);
    }
  }

  /** What a fan-out to distinct targets consists of. */
  ghost predicate ReachesExactly(db: Db, m: Msg, n: int, targets: seq<Uid>, pushes: seq<Push>) {
    && (forall p :: p in pushes ==>
          p.toUid in targets && p.toUid in db.online
          && p == PushFor(m, n, p.toUid, m.mentionAll || p.toUid in m.mentions))
    && (forall u :: u in targets && u in db.online ==> exists p :: p in pushes && p.toUid == u)
    && (forall i, j :: 0 <= i < j < |pushes| ==> pushes[i].toUid != pushes[j].toUid)
  }

  lemma {:induction false} FanoutReaches(db: Db, m: Msg, n: int, targets: seq<Uid>)
    requires Distinct(targets)
    ensures ReachesExactly(db, m, n, targets, Fanout(db, m, n, targets))
  {
    if targets != [] {
      var k := |targets| - 1;
      FanoutReaches(db, m, n, targets[..k]);
      var before, all, u := Fanout(db, m, n, targets[..k]), Fanout(db, m, n, targets), targets[k];
      forall x | x in targets && x in db.online
        ensures exists p :: p in all && p.toUid == x
      {
        if x == u {
          assert all[|all| - 1].toUid == u;
        } else {
          var p :| p in before && p.toUid == x;
          assert p in all;
        }
      }
      forall i | 0 <= i < |before|
        ensures before[i].toUid != u
      {
        assert before[i] in before;
        assert before[i].toUid in targets[..k];
      }
    }
  }

  /** A group message that passes the checks leaves exactly one row under its id and is pushed once
      to every member that is online and to nobody else, with the mention flag for those it mentions;
      one that fails them leaves nothing. */
  lemma GroupMessageReachesMembers(db: Db, m: Msg)
    requires AllInv(db) && m.kind == Group
    ensures var h, g := Handle(db, m), m.convId;
      && h.status == (if GroupAccepts(db, m) then Accepted else Poison)
      && (GroupAccepts(db, m) ==>
            && h.msg.id in h.db.messages
            && h.db.messages == db.messages[h.msg.id := h.db.messages[h.msg.id]]
            && (m.id == NoId ==> h.msg.id == DeriveId(m))
            && (forall p :: p in h.pushes ==>
                  && p.id == h.msg.id && p.cliId == m.cliId && p.convId == g && p.fromUid == m.fromUid && p.kind == Group
                  && p.seqNo == h.db.messages[h.msg.id].seqNo && p.content == h.db.messages[h.msg.id].content
                  && p.mention == (m.mentionAll || p.toUid in m.mentions))
            && (forall u :: (exists p :: p in h.pushes && p.toUid == u) <==> (g, u) in db.convMembers && u in db.online)
            && (forall i, j :: 0 <= i < j < |h.pushes| ==> h.pushes[i].toUid != h.pushes[j].toUid))
      && (!GroupAccepts(db, m) ==> h.db == db && h.pushes == [])
  {
    hide SeqInv, SingleInv, Keyed, FindMember, ActiveUids, ActiveRole, GroupAccepts, StoreAndPush;
    if GroupAccepts(db, m) {
      AcceptedGroup(db, m);
      assert GroupOk(db, m.convId);
      var targets := ActiveUids(Roster(db, m.convId));
      ActiveUidsDistinct(Roster(db, m.convId));
      StoredAndFannedOut(db, m, targets);
      var h := Handle(db, m);
      forall u
        ensures (exists p :: p in h.pushes && p.toUid == u) <==> (m.convId, u) in db.convMembers && u in db.online
      {
        MembersAreActive(db, m.convId, u);
      }
    }
  }

  lemma AcceptedGroup(db: Db, m: Msg)
    requires GroupAccepts(db, m)
    ensures m.convId in db.groups
  {
  }

  lemma {:induction false} StoredOnce(db: Db, m: Msg, targets: seq<Uid>)
    requires SeqInv(db) && m.kind != Single
    ensures var h := StoreAndPush(db, m, targets);
      && h.status == Accepted && h.msg.id == AssignId(m).id && h.msg.id in h.db.messages
      && h.db.messages == db.messages[h.msg.id := h.db.messages[h.msg.id]]
      && h.db.online == db.online && h.msg == AssignId(m).(content := h.db.messages[h.msg.id].content)
      && h.pushes == Fanout(h.db, h.msg, h.db.messages[h.msg.id].seqNo, targets)
  {
    NextNumberIsFree(db, m.convId);
    hide Fanout, Numbered, SeqInv;
  }

  lemma StoredAndFannedOut(db: Db, m: Msg, targets: seq<Uid>)
    requires SeqInv(db) && m.kind != Single && Distinct(targets)
    ensures var h := StoreAndPush(db, m, targets);
      && h.status == Accepted && h.msg.id == AssignId(m).id && h.msg.id in h.db.messages
      && h.db.messages == db.messages[h.msg.id := h.db.messages[h.msg.id]]
      && h.db.online == db.online && h.msg == AssignId(m).(content := h.db.messages[h.msg.id].content)
      && ReachesExactly(h.db, h.msg, h.db.messages[h.msg.id].seqNo, targets, h.pushes)
  {
    hide StoreAndPush, Fanout, ReachesExactly, Distinct, SeqInv;
    StoredOnce(db, m, targets);
    var h := StoreAndPush(db, m, targets);
    FanoutReaches(h.db, h.msg, h.db.messages[h.msg.id].seqNo, targets);
  }

  /** A group message that is delivered again after its sender has left, or after the group was
      dismissed, is poison although it is stored: it is not pushed again, and its offset is skipped. */
  lemma ReplayAfterLeavingIsPoison(db: Db, m: Msg)
    requires GroupInv(db) && m.kind == Group && m.convId != "" && AssignId(m).id in db.messages
    ensures Handle(db, m).db == db
    ensures (m.convId, m.fromUid) !in db.convMembers
            || (m.convId in db.groups && db.groups[m.convId].status == Dismissed) ==>
      Handle(db, m).status == Poison && Handle(db, m).pushes == []
  {
    AcceptedMeans(db, m);
    hide GroupAccepts, GroupOk;
  }

  // ---------------------------------------------------------------- what is accepted

  /** What a frame needs, in terms of the tables: two users who exist and a conversation the sender is a
      member of, or none and not himself as receiver; a living group that the sender and everybody
      mentioned are in, and its owner to mention all; an event's id and conversation. A frame without a
      type is for two users. */
  predicate Acceptable(db: Db, m: Msg) {
    match m.kind
    case Unset => AcceptablePair(db, m)
    case Single => AcceptablePair(db, m)
    case Group =>
      && m.convId != "" && m.convId in db.groups && db.groups[m.convId].status == GroupStatus.Active
      && (m.convId, m.fromUid) in db.convMembers
      && (m.mentionAll ==> m.fromUid == db.groups[m.convId].owner)
      && (forall u :: u in m.mentions ==> (m.convId, u) in db.convMembers)
    case SystemEvent => m.id != NoId && m.convId != ""
    case Other(_) => false
  }

  predicate AcceptablePair(db: Db, m: Msg) {
    && m.fromUid in db.users && m.toUid in db.users
    && if m.convId == "" then m.fromUid != m.toUid
       else m.convId in db.convs && (m.convId, m.fromUid) in db.convMembers
  }

  lemma PairAccepted(db: Db, m: Msg)
    requires Inv(db) && DrawsUnused(db, m) && m.kind == Single
    ensures ValidateSingle(db, m).Pass? <==> AcceptablePair(db, m)
    ensures ValidateSingle(db, m).Pass? ==> SeqInv(ValidateSingle(db, m).db)
  {
    hide SeqInv;
    if m.convId == "" && m.fromUid in db.users && m.toUid in db.users {
      OpenKeepsInv(db, m.fromUid, m.toUid, m.newConv);
    }
  }

  lemma StoringAccepts(db: Db, m: Msg, targets: seq<Uid>)
    requires SeqInv(db)
    ensures StoreAndPush(db, m, targets).status == Accepted
  {
    NextNumberIsFree(db, AssignId(m).convId);
    hide Numbered, SeqInv, Pushes;
  }

  /** What becomes of a frame, exactly: it is accepted, rejected for good, or comes back for ever. */
  lemma AcceptedExactly(db: Db, m: Msg)
    requires AllInv(db) && DrawsUnused(db, m)
    ensures var status := Handle(db, m).status;
      && (status == Accepted <==> Acceptable(db, m))
      && (status == Fault <==>
            m.kind in {Unset, Single} && m.convId == "" && m.fromUid == m.toUid && m.fromUid in db.users)
  {
    HandleKeepsInv(db, m);
    var m0 := Normalise(m);
    hide SeqInv, SingleInv, StoreAndPush, ValidateSingle, GroupAccepts, ActiveUids, GroupInv;
    match m.kind
    case Group =>
      if m.convId != "" {
        AcceptedMeans(db, m);
      } else {
        NamelessGroup(db, m);
      }
      StoringAccepts(db, m, ActiveUids(Roster(db, m.convId)));
    case SystemEvent => StoringAccepts(db, m, ActiveUids(Roster(db, m.convId)));
    case Other(_) =>
    case _ =>
      PairAccepted(db, m0);
      match ValidateSingle(db, m0) {
        case Pass(d, m1) => StoringAccepts(d, m1, []);
        case _ =>
      }
  }

  lemma NamelessGroup(db: Db, m: Msg)
    requires m.convId == ""
    ensures !GroupAccepts(db, m)
  {
  }
}
