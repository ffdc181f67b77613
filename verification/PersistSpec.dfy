// What the persist worker does with one chat.msg frame, as functions of the tables.
module PersistSpec {
  import opened Wrappers
  import opened Chat
  import opened Strings
  import opened Tables

  /** Accepted: stored or found stored, and pushed. Poison: rejected for good, skipped. Fault: any
      other error; the frame is delivered again. */
  datatype Status = Accepted | Poison | Fault

  datatype Handled = Handled(db: Db, msg: Msg, pushes: seq<Push>, status: Status)

  // ---------------------------------------------------------------- message ids

  function IdName(c: ConvId, from: Uid, cli: string): string {
    c + "|" + from + "|" + cli
  }

  /** The name an id is derived from is unambiguous as long as the conversation and the sender are
      written without '|'. */
  lemma IdNameInjective(c: ConvId, from: Uid, cli: string, c': ConvId, from': Uid, cli': string)
    requires '|' !in c && '|' !in from && '|' !in c' && '|' !in from'
    ensures IdName(c, from, cli) == IdName(c', from', cli') <==> c == c' && from == from' && cli == cli'
  {
    assert IdName(c, from, cli) == c + ['|'] + (from + ['|'] + cli);
    assert IdName(c', from', cli') == c' + ['|'] + (from' + ['|'] + cli');
    if IdName(c, from, cli) == IdName(c', from', cli') {
      JoinInjective(c, from + ['|'] + cli, c', from' + ['|'] + cli', '|');
      JoinInjective(from, cli, from', cli', '|');
    }
  }

  predicate SameName(c: ConvId, from: Uid, cli: string, c': ConvId, from': Uid, cli': string) {
    IdName(c, from, cli) == IdName(c', from', cli')
  }

  /** Some other conversation and sender, with a client id to match, have the same name. */
  ghost predicate Ambiguous(c: ConvId, from: Uid, cli: string) {
    exists c', from', cli' :: (c' != c || from' != from) && SameName(c, from, cli, c', from', cli')
  }

  lemma SplitAtBar(s: string) returns (a: string, b: string)
    requires '|' in s
    ensures s == a + "|" + b
  {
    var i :| 0 <= i < |s| && s[i] == '|';
    a, b := s[..i], s[i + 1..];
  }

  lemma ShiftBar(a: string, b: string, x: string, y: string)
    ensures SameName(a + "|" + b, x, y, a, b, x + "|" + y)
    ensures SameName(a, b + "|" + x, y, a + "|" + b, x, y)
  {
    assert (a + "|" + b) + "|" + x + "|" + y == a + "|" + b + "|" + (x + "|" + y);
    assert a + "|" + (b + "|" + x) + "|" + y == (a + "|" + b) + "|" + x + "|" + y;
  }

  lemma BarsOfName(c: ConvId, from: Uid, cli: string)
    ensures var s := IdName(c, from, cli);
      && |s| == |c| + |from| + |cli| + 2 && s[|c|] == '|' && s[|c| + 1 + |from|] == '|'
      && s[..|c|] == c && s[|c| + 1..|c| + 1 + |from|] == from
    ensures '|' !in c && '|' !in from && '|' !in cli ==>
      forall i :: 0 <= i < |IdName(c, from, cli)| && IdName(c, from, cli)[i] == '|' ==> i == |c| || i == |c| + 1 + |from|
  {
  }

  lemma PlainNameIsUnique(c: ConvId, from: Uid, cli: string, c': ConvId, from': Uid, cli': string)
    requires '|' !in c && '|' !in from && '|' !in cli && SameName(c, from, cli, c', from', cli')
    ensures c' == c && from' == from
  {
    BarsOfName(c, from, cli);
    BarsOfName(c', from', cli');
    hide IdName;
    assert |c'| == |c| && |from'| == |from|;
  }

  /** The name an id is derived from belongs to one conversation and one sender exactly when there is
      no '|' anywhere in it but the two separators. */
  lemma AmbiguousNames(c: ConvId, from: Uid, cli: string)
    ensures Ambiguous(c, from, cli) <==> '|' in c || '|' in from || '|' in cli
  {
    if '|' in c {
      var a, b := SplitAtBar(c);
      ShiftBar(a, b, from, cli);
    } else if '|' in from {
      var a, b := SplitAtBar(from);
      ShiftBar(c, a, b, cli);
    } else if '|' in cli {
      var a, b := SplitAtBar(cli);
      ShiftBar(c, from, a, b);
      assert SameName(c, from, cli, c + "|" + from, a, b);
    } else if Ambiguous(c, from, cli) {
      var c', from', cli' :| (c' != c || from' != from) && SameName(c, from, cli, c', from', cli');
      PlainNameIsUnique(c, from, cli, c', from', cli');
    }
  }

  /** So a client that names a conversation with '|' can get the id of a message of another sender in
      another conversation. */
  lemma IdNameCollides()
    ensures IdName("x|y", "u", "c") == IdName("x", "y", "u|c")
  {
    assert IdName("x|y", "u", "c") == "x|y|u|c" == IdName("x", "y", "u|c");
  }

  function DeriveId(m: Msg): Id {
    if m.cliId == "" then Drawn(m.draw) else Named(IdName(m.convId, m.fromUid, m.cliId))
  }

  function AssignId(m: Msg): Msg {
    if m.id == NoId then m.(id := DeriveId(m)) else m
  }

  // ---------------------------------------------------------------- the storing transaction

  datatype Stored =
    | Created(db: Db, seqNo: int)
    | Replayed(seqNo: int, content: Content)
    | Violation

  function PersistTx(db: Db, m: Msg): Stored {
    if m.id in db.messages then Replayed(db.messages[m.id].seqNo, db.messages[m.id].content)
    else
      var n := Counter(db, m.convId) + 1;
      if Numbered(db, m.convId, n) then Violation
      else Created(Append(db, m.id, m.convId, m.fromUid, m.kind, m.content), n)
  }

  // ---------------------------------------------------------------- group members

  function Roster(db: Db, g: ConvId): seq<Member> {
    if g in db.roster then db.roster[g] else []
  }

  /** The uids of the members that have not left, in roster order. */
  function ActiveUids(ms: seq<Member>): seq<Uid> {
    if ms == [] then []
    else
      var m := ms[|ms| - 1];
      ActiveUids(ms[..|ms| - 1]) + if m.left then [] else [m.uid]
  }

  /** The role of a user among the members that have not left. */
  function ActiveRole(ms: seq<Member>, u: Uid): Option<Role> {
    if ms == [] then None
    else
      var m := ms[|ms| - 1];
      if !m.left && m.uid == u then Some(m.role) else ActiveRole(ms[..|ms| - 1], u)
  }

  predicate GroupAccepts(db: Db, m: Msg) {
    && m.convId != ""
    && m.convId in db.groups
    && db.groups[m.convId].status == Active
    && var ms := Roster(db, m.convId);
       var role := ActiveRole(ms, m.fromUid);
    && role != None
    && (m.mentionAll ==> role == Some(Owner))
    && (forall u :: u in m.mentions ==> u in ActiveUids(ms))
  }

  // ---------------------------------------------------------------- pushes

  function PushFor(m: Msg, n: int, to: Uid, mention: bool): Push {
    Push(m.id, m.cliId, m.convId, n, m.fromUid, to, m.kind, m.content, mention)
  }

  /** One push per target that has an online record. */
  function Fanout(db: Db, m: Msg, n: int, targets: seq<Uid>): seq<Push> {
    if targets == [] then []
    else
      var u := targets[|targets| - 1];
      Fanout(db, m, n, targets[..|targets| - 1])
      + if u in db.online then [PushFor(m, n, u, m.mentionAll || u in m.mentions)] else []
  }

  function Pushes(db: Db, m: Msg, n: int, targets: seq<Uid>): seq<Push> {
    if m.kind == Single then [PushFor(m, n, m.toUid, false)] else Fanout(db, m, n, targets)
  }

  function StoreAndPush(db: Db, m: Msg, targets: seq<Uid>): Handled {
    var m1 := AssignId(m);
    match PersistTx(db, m1)
    case Violation => Handled(db, m1, [], Fault)
    case Created(d, n) => Handled(d, m1, Pushes(d, m1, n, targets), Accepted)
    case Replayed(n, content) =>
      var m2 := m1.(content := content);
      Handled(db, m2, Pushes(db, m2, n, targets), Accepted)
  }

  // ---------------------------------------------------------------- one frame

  datatype Checked = Pass(db: Db, msg: Msg) | Reject | Broken

  function ValidateSingle(db: Db, m: Msg): Checked {
    if m.fromUid !in db.users || m.toUid !in db.users then Reject
    else if m.convId == "" then
      match EnsureSingle(db, m.fromUid, m.toUid, m.newConv)
      case Found(c) => Pass(db, m.(convId := c))
      case Opened(d, c) => Pass(d, m.(convId := c))
      case SamePerson => Broken
      case Clash => Broken
    else if m.convId !in db.convs || (m.convId, m.fromUid) !in db.convMembers then Reject
    else Pass(db, m)
  }

  function Normalise(m: Msg): Msg {
    if m.kind == Unset then m.(kind := Single) else m
  }

  function Handle(db: Db, frame: Msg): Handled {
    var m := Normalise(frame);
    match m.kind
    case SystemEvent =>
      if m.id == NoId || m.convId == "" then Handled(db, m, [], Poison)
      else StoreAndPush(db, m, ActiveUids(Roster(db, m.convId)))
    case Group =>
      if GroupAccepts(db, m) then StoreAndPush(db, m, ActiveUids(Roster(db, m.convId)))
      else Handled(db, m, [], Poison)
    case Single =>
      (match ValidateSingle(db, m)
       case Reject => Handled(db, m, [], Poison)
       case Broken => Handled(db, m, [], Fault)
       case Pass(d, m1) => StoreAndPush(d, m1, []))
    case _ => Handled(db, m, [], Poison)
  }

  datatype Ran = Ran(db: Db, pushes: seq<Push>, failed: bool)

  /** The frames one after the other, skipping poison and stopping at the first fault: the slow path
      of the consumer loop. */
  function HandleAll(db: Db, frames: seq<Msg>): Ran {
    if frames == [] then Ran(db, [], false)
    else
      var k := |frames| - 1;
      var before := HandleAll(db, frames[..k]);
      if before.failed then before
      else
        var h := Handle(before.db, frames[k]);
        Ran(h.db, before.pushes + h.pushes, h.status == Fault)
  }
}
