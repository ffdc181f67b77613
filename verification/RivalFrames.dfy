// Two frames with one id in one batch: the first takes the push, and the receiver of the second is left
// out. How clients bring that about, and that the states it takes can be reached.
module RivalFrames {
  import opened Wrappers
  import opened Chat
  import opened Tables
  import opened PersistSpec
  import opened PersistInvariants
  import opened BatchSpec
  import opened BatchBulk
  import opened ChatRuns
  import opened Delivered
  import opened PersistLoop
  import opened PersistLoopTurn
  import BarredIds

  /** Two frames for existing conversations that get the same id, of a row that is there already. */
  ghost predicate Replays(db: Db, a: Msg, b: Msg) {
    && a.kind == Single && b.kind == Single && a.convId != "" && b.convId != ""
    && Prepare(db, a).id == Prepare(db, b).id && Prepare(db, a).id in db.messages
  }

  lemma FinishTwo(db: Db, p: Msg, q: Msg)
    requires p.id == q.id && p.id in db.messages
    ensures FinishBatch(db, Firsts([p, q])) == Finished(db, [ReplayPush(db, p)], BatchStatus.Done)
  {
    hide FinishBatch, ReplayPush;
    assert [p] + [q] == [p, q];
    FirstsSnoc([p], q);
    assert p in [p] && p.id in Ids([p]);
    var none: seq<Msg> := [];
    assert none + [p] == [p];
    FirstsSnoc(none, p);
    BarredIds.FinishOne(db, p);
  }

  lemma {:induction false} EarlyOfTwo(db: Db, a: Msg, b: Msg)
    requires !IsEarly(db, a) && !IsEarly(db, b)
    ensures RunEarly(db, [a, b]) == EarlyRun(db, [Prepare(db, a), Prepare(db, b)], [], false)
    ensures Rest(db, [a, b]) == [Prepare(db, a), Prepare(db, b)]
  {
    hide Handle, IsEarly, Prepare;
    var none: seq<Msg> := [];
    assert [a, b][..1] == [a] && [a][..0] == none;
    assert none + [Prepare(db, a)] == [Prepare(db, a)];
    assert [Prepare(db, a)] + [Prepare(db, b)] == [Prepare(db, a), Prepare(db, b)];
    assert RunEarly(db, [a]) == EarlyRun(db, [Prepare(db, a)], [], false);
    assert Rest(db, [a]) == [Prepare(db, a)];
  }

  lemma BatchOfTwo(db: Db, a: Msg, b: Msg)
    requires Replays(db, a, b)
    ensures HandleBatch(db, [a, b]) ==
      BatchOut(db, [Prepare(db, a), Prepare(db, b)], [ReplayPush(db, Prepare(db, a))], BatchStatus.Done)
  {
    EarlyOfTwo(db, a, b);
    hide FinishBatch, RunEarly, Rest, Prepare, Firsts, ReplayPush;
    FinishTwo(db, Prepare(db, a), Prepare(db, b));
    var push := ReplayPush(db, Prepare(db, a));
    assert [] + [push] == [push];
  }

  lemma SinglesOfTwo(a: Msg, b: Msg)
    requires a.kind == Single && b.kind == Single
    ensures Singles([Some(a), Some(b)]) == [a, b] && Others([Some(a), Some(b)]) == []
  {
    var none: seq<Option<Msg>> := [];
    assert [Some(a), Some(b)][..1] == [Some(a)] && [Some(a)][..0] == none;
    assert Singles([Some(a)]) == [a] && Others([Some(a)]) == [];
    assert [a] + [b] == [a, b];
  }

  /** The batch of the two goes through, changes nothing, and pushes to the receiver of the first only. */
  lemma FirstTakesPush(db: Db, a: Msg, b: Msg)
    requires Replays(db, a, b)
    ensures Consume(db, [Some(a), Some(b)]) == Ran(db, [ReplayPush(db, Prepare(db, a))], false)
    ensures ReplayPush(db, Prepare(db, a)).toUid == a.toUid && ReplayPush(db, Prepare(db, a)).convId == a.convId
  {
    BatchOfTwo(db, a, b);
    SinglesOfTwo(a, b);
    assert ReplayPush(db, Prepare(db, a)).toUid == a.toUid;
    hide HandleBatch, ReplayPush, Prepare, Singles, Others;
    var push := ReplayPush(db, Prepare(db, a));
    assert [push] + [] + [] == [push];
  }

  /** So a turn of the loop commits both, the second unserved. */
  lemma SecondIsCommittedUnserved(s: Loop, a: Msg, b: Msg)
    requires s.phase == Fetched && s.pending == [] && s.frames == [Some(a), Some(b)] && Replays(s.db, a, b)
    requires a.toUid != b.toUid
    ensures var begun := Repeat(Next(s, Resolve), Open, |SinglesOf(s)| + 1);
      var retried := Repeat(Next(begun, Store), Retry, |SinglesOf(s)| + 1);
      var t := Next(Next(Repeat(retried, HandleOther, |OthersOf(s)| + 1), Flush), Commit);
      && t.committed == s.committed + 2 && t.db == s.db
      && |t.topic| == |s.topic| + 1 && s.topic <= t.topic && t.topic[|s.topic|].toUid == a.toUid
  {
    hide *;
    FirstTakesPush(s.db, a, b);
    TurnCommits(s);
  }

  /** Two frames that differ in their receiver alone: both have to be delivered, and each by itself would
      be, but in one batch the receiver of the second gets nothing. */
  lemma SecondReceiverIsSkipped(db: Db, a: Msg, b: Msg)
    requires Inv(db) && Tidy(db) && Deliverable(db, a) && Deliverable(db, b) && a.convId != ""
    requires b == a.(toUid := b.toUid) && a.toUid != b.toUid && Prepare(db, a).id in db.messages
    ensures Replays(db, a, b)
    ensures var c := Consume(db, [Some(a), Some(b)]);
      !c.failed && !RowPushed(c.db, c.pushes, Prepare(db, b).id, b.toUid)
    ensures var h := Handle(db, b); RowPushed(h.db, h.pushes, Prepare(h.db, b).id, b.toUid)
  {
    FirstTakesPush(db, a, b);
    hide Consume, Handle, SeqInv, SingleInv, Tidy;
    HandleCovers(db, b);
  }

  /** A frame that names a conversation with a bar can take the push of another sender's frame in the same
      way. */
  lemma BarredFrameTakesPush(db: Db, a: Msg, b: Msg)
    requires a.kind == Single && a.id == NoId && a.convId == "x|y" && a.fromUid == "u" && a.cliId == "c"
    requires b.kind == Single && b.id == NoId && b.convId == "x" && b.fromUid == "y" && b.cliId == "u|c"
    requires Named(IdName("x", "y", "u|c")) in db.messages && a.toUid != b.toUid
    ensures Replays(db, a, b)
    ensures var c := Consume(db, [Some(a), Some(b)]);
      !c.failed && !RowPushed(c.db, c.pushes, Prepare(db, b).id, b.toUid)
  {
    IdNameCollides();
    hide IdName;
    assert Prepare(db, a) == a.(id := Named(IdName("x", "y", "u|c")));
    assert Prepare(db, b) == b.(id := Named(IdName("x", "y", "u|c")));
    FirstTakesPush(db, a, b);
    hide Consume;
  }

  // ---------------------------------------------------------------- the state is reachable

  const SECRET := Msg(NoId, "u|c", "x", "y", "v", Single, "secret", [], false, "n", 0)

  const THREE_USERS := EMPTY.(users := {"u", "v", "y"})

  const OPENED := THREE_USERS.(
    convs := map["x" := Conversation(false, ["y", "v"], 0)],
    singles := map[SingleKey("y", "v") := "x"],
    convMembers := {("x", "y"), ("x", "v")})

  lemma {:induction false} Then(db: Db, steps: seq<Step>, step: Step, d: Db)
    requires LawfulRun(db, steps) && Lawful(Run(db, steps), step) && Perform(Run(db, steps), step) == d
    ensures LawfulRun(db, steps + [step]) && Run(db, steps + [step]) == d
  {
    assert (steps + [step])[..|steps|] == steps;
  }

  lemma SecretIsStored()
    ensures Lawful(OPENED, Frame(SECRET))
    ensures var d := Perform(OPENED, Frame(SECRET));
      var id := Named(IdName("x", "y", "u|c"));
      && id in d.messages && d.messages[id].convId == "x" && d.messages[id].fromUid == "y"
      && d.messages[id].content == "secret" && d.convs.Keys == {"x"} && d.users == {"u", "v", "y"}
  {
    hide IdName, SingleKey;
    assert ValidateSingle(OPENED, SECRET) == Pass(OPENED, SECRET);
    assert !Numbered(OPENED, "x", 1);
  }

  /** From empty tables, in a lawful run: three users sign up, two of them open the conversation "x", and
      "y" writes into it under a client id of his own choice. In the tables that this leaves the frame
      of "u" for "x|y" takes the row's content to any user, while alone it is rejected. */
  lemma ForeignRowIsReached(to: Uid, draw: nat)
    ensures var steps := [SignUp("u")] + [SignUp("v")] + [SignUp("y")] + [OpenSingle("y", "v", "x")] + [Frame(SECRET)];
      var d := Run(EMPTY, steps);
      var m := Msg(NoId, "c", "x|y", "u", to, Single, "none", [], false, "n", draw);
      && LawfulRun(EMPTY, steps)
      && var b := HandleBatch(d, [m]);
         && b.status == BatchStatus.Done && |b.pushes| == 1 && b.pushes[0].toUid == to
         && b.pushes[0].convId == "x|y" && b.pushes[0].fromUid == "u" && b.pushes[0].content == "secret"
         && Handle(d, m).status == Poison
  {
    UsersSignUp();
    PairOpens();
    SecretIsStored();
    hide Lawful, Perform, Run, LawfulRun, HandleBatch, Handle, IdName;
    var steps := [SignUp("u")];
    assert [] + steps == steps;
    Then(EMPTY, [], SignUp("u"), EMPTY.(users := {"u"}));
    Then(EMPTY, steps, SignUp("v"), EMPTY.(users := {"u", "v"}));
    steps := steps + [SignUp("v")];
    Then(EMPTY, steps, SignUp("y"), THREE_USERS);
    steps := steps + [SignUp("y")];
    Then(EMPTY, steps, OpenSingle("y", "v", "x"), OPENED);
    steps := steps + [OpenSingle("y", "v", "x")];
    var d := Perform(OPENED, Frame(SECRET));
    Then(EMPTY, steps, Frame(SECRET), d);
    var m := Msg(NoId, "c", "x|y", "u", to, Single, "none", [], false, "n", draw);
    assert "x|y" !in d.convs;
    BarredIds.BarredFrameShowsForeignRow(d, m);
  }

  lemma UsersSignUp()
    ensures LawfulRun(EMPTY, []) && Run(EMPTY, []) == EMPTY
    ensures Lawful(EMPTY, SignUp("u")) && Perform(EMPTY, SignUp("u")) == EMPTY.(users := {"u"})
    ensures var d := EMPTY.(users := {"u"}); Lawful(d, SignUp("v")) && Perform(d, SignUp("v")) == EMPTY.(users := {"u", "v"})
    ensures var d := EMPTY.(users := {"u", "v"}); Lawful(d, SignUp("y")) && Perform(d, SignUp("y")) == THREE_USERS
  {
  }

  lemma PairOpens()
    ensures Lawful(THREE_USERS, OpenSingle("y", "v", "x")) && Perform(THREE_USERS, OpenSingle("y", "v", "x")) == OPENED
  {
    hide SingleKey;
  }
}
