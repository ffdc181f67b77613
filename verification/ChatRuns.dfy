// Runs of the whole write side: frames handled one by one or in batches, conversations opened by the
// gateway, groups created, managed and left, users signing up and coming and going.
module ChatRuns {
  import opened Chat
  import opened Tables
  import opened PersistSpec
  import opened PersistInvariants
  import opened GroupSpec
  import opened GroupInvariants
  import opened BatchSpec
  import opened BatchBulk
  import opened BatchRefinement

  datatype Step =
    | Frame(m: Msg)
    | Batch(ms: seq<Msg>)
    | OpenSingle(a: Uid, b: Uid, drawn: ConvId)
    | Create(g: ConvId, owner: Uid, name: string, members: seq<Uid>, note: Content, draw: nat)
    | Govern(g: ConvId, operator: Uid, change: Change, note: Content, draw: nat)
    | Leave(g: ConvId, u: Uid, note: Content, draw: nat)
    | Presence(online: map<Uid, OnlineValue>)
    | SignUp(u: Uid)

  function Committed(db: Db, r: GroupOut): Db {
    if r.Ok? then r.db else db
  }

  function Perform(db: Db, s: Step): Db {
    match s
    case Frame(m) => Handle(db, m).db
    case Batch(ms) => HandleBatch(db, ms).db
    case OpenSingle(a, b, drawn) => if EnsureSingle(db, a, b, drawn).Opened? then EnsureSingle(db, a, b, drawn).db else db
    case Create(g, owner, name, members, note, draw) => Committed(db, CreateGroup(db, g, owner, name, members, note, draw))
    case Govern(g, operator, change, note, draw) => Committed(db, Manage(db, g, operator, change, note, draw))
    case Leave(g, u, note, draw) => Committed(db, Quit(db, g, u, note, draw))
    case Presence(online) => db.(online := online)
    case SignUp(u) => db.(users := db.users + {u})
  }

  /** The random values of a step are new, and user ids contain neither ':' nor '|'. */
  ghost predicate Lawful(db: Db, s: Step) {
    match s
    case Frame(m) => DrawsUnused(db, m)
    case Batch(ms) => FreshDraws(db, ms) && forall m :: m in ms ==> m.kind == Single && m.id == NoId
    case OpenSingle(a, b, drawn) => Unused(db, drawn) && CleanUid(a) && CleanUid(b)
    case Create(_, _, _, _, _, draw) => Drawn(draw) !in db.messages
    case Govern(_, _, _, _, draw) => Drawn(draw) !in db.messages
    case Leave(_, _, _, draw) => Drawn(draw) !in db.messages
    case Presence(_) => true
    case SignUp(u) => CleanUid(u)
  }

  // ---------------------------------------------------------------- batches, stuck frames or not

  lemma StoreKeepsUnused(d: Db, m: Msg, c: ConvId)
    requires Unused(d, c) && c != m.convId
    ensures Unused(StoreAndPush(d, m, []).db, c)
  {
    hide Numbered;
  }

  lemma ValidatedKeepsUnused(d: Db, m: Msg, c: ConvId)
    requires SingleInv(d) && m.convId == "" && Unused(d, c) && c != m.newConv
    ensures match ValidateSingle(d, m)
      case Pass(e, m1) => Unused(e, c) && m1.convId != c
      case _ => true
  {
    hide SingleKey;
  }

  lemma HandleKeepsUnused(d: Db, m: Msg, c: ConvId)
    requires SingleInv(d) && m.kind == Single && m.convId == "" && Unused(d, c) && c != m.newConv
    ensures Unused(Handle(d, m).db, c)
  {
    hide Unused, SingleInv, ValidateSingle, StoreAndPush;
    ValidatedKeepsUnused(d, m, c);
    match ValidateSingle(d, m)
    case Pass(e, m1) => StoreKeepsUnused(e, m1, c);
    case _ =>
  }

  /** What is drawn for the frames still to come is not in the tables yet. */
  ghost predicate LaterUnused(d: Db, ms: seq<Msg>, k: nat) {
    forall j :: k <= j < |ms| ==> Unused(d, ms[j].newConv)
  }

  lemma EarlyKeepsUnused(db: Db, d: Db, ms: seq<Msg>, k: nat)
    requires Inv(d) && FreshDraws(db, ms) && LaterUnused(d, ms, k) && k < |ms|
    requires ms[k].kind == Single && ms[k].convId == ""
    ensures LaterUnused(Handle(d, ms[k]).db, ms, k + 1)
  {
    hide SeqInv, SingleInv, Handle, Unused;
    forall j | k < j < |ms| {
      HandleKeepsUnused(d, ms[k], ms[j].newConv);
    }
  }

  lemma {:induction false} RunEarlyKeeps(db: Db, ms: seq<Msg>, k: nat)
    requires AllInv(db) && FreshDraws(db, ms) && (forall m :: m in ms ==> m.kind == Single) && k <= |ms|
    ensures AllInv(RunEarly(db, ms[..k]).db) && LaterUnused(RunEarly(db, ms[..k]).db, ms, k)
  {
    hide SeqInv, SingleInv, Handle, GroupInv;
    if k > 0 {
      RunEarlyKeeps(db, ms, k - 1);
      assert ms[..k][..k - 1] == ms[..k - 1];
      var d := RunEarly(db, ms[..k - 1]).db;
      if !RunEarly(db, ms[..k - 1]).failed && IsEarly(db, ms[k - 1]) {
        EarlyKeepsUnused(db, d, ms, k - 1);
        HandleKeepsGroups(d, ms[k - 1]);
      }
    }
  }

  ghost predicate AllNew(db: Db, ms: seq<Msg>) {
    DistinctIds(ms) && forall m :: m in ms ==> m.id !in db.messages
  }

  lemma AppendKeepsAll(d: Db, p: Msg)
    requires AllInv(d) && p.id !in d.messages
    ensures AllInv(AppendMsg(d, p)) && AppendMsg(d, p).messages.Keys == d.messages.Keys + {p.id}
  {
    hide SeqInv, SingleInv, GroupInv, Append;
    AppendKeepsSeqInv(d, p.id, p.convId, p.fromUid, p.kind, p.content);
    AppendKeepsGroups(d, p.id, p.convId, p.fromUid, p.kind, p.content);
    AppendAddsKey(d, p);
  }

  lemma AllNewSnoc(db: Db, ms: seq<Msg>)
    requires AllNew(db, ms) && ms != []
    ensures var k := |ms| - 1;
      AllNew(db, ms[..k]) && ms[k].id !in db.messages.Keys + Ids(ms[..k]) && Ids(ms) == Ids(ms[..k]) + {ms[k].id}
  {
    assert ms == ms[..|ms| - 1] + [ms[|ms| - 1]];
  }

  lemma {:induction false} AppendEachMore(db: Db, ms: seq<Msg>)
    ensures ms != [] ==> AppendEach(db, ms) == AppendMsg(AppendEach(db, ms[..|ms| - 1]), ms[|ms| - 1])
    ensures ms == [] ==> AppendEach(db, ms) == db && Ids(ms) == {}
  {
    hide Append;
  }

  lemma {:induction false} AppendEachKeeps(db: Db, ms: seq<Msg>)
    requires AllInv(db) && AllNew(db, ms)
    ensures AllInv(AppendEach(db, ms))
    ensures AppendEach(db, ms).messages.Keys == db.messages.Keys + Ids(ms)
  {
    hide *;
    AppendEachMore(db, ms);
    if ms != [] {
      AllNewSnoc(db, ms);
      AppendEachKeeps(db, ms[..|ms| - 1]);
      AppendKeepsAll(AppendEach(db, ms[..|ms| - 1]), ms[|ms| - 1]);
    }
  }

  lemma {:induction false} NewsAreNew(d: Db, ms: seq<Msg>)
    ensures AllNew(d, Unknown(d, Firsts(ms)))
  {
    hide Firsts, Unknown, DistinctIds;
    FirstsDistinct(ms);
    UnknownDistinct(d, Firsts(ms));
  }

  lemma BatchKeepsInv(db: Db, ms: seq<Msg>)
    requires AllInv(db) && Lawful(db, Batch(ms))
    ensures AllInv(HandleBatch(db, ms).db)
  {
    hide SeqInv, SingleInv, GroupInv, RunEarly, Rest, Firsts, Unknown, AppendEach, Handle;
    assert ms[..|ms|] == ms;
    RunEarlyKeeps(db, ms, |ms|);
    var d := RunEarly(db, ms).db;
    NewsAreNew(d, Rest(db, ms));
    AppendEachKeeps(d, Unknown(d, Firsts(Rest(db, ms))));
  }

  // ---------------------------------------------------------------- one step, every run

  lemma StepKeepsInv(db: Db, s: Step)
    requires AllInv(db) && Lawful(db, s)
    ensures AllInv(Perform(db, s))
  {
    hide SeqInv, SingleInv, GroupInv, Handle, HandleBatch, CreateGroup, Manage, Quit;
    match s
    case Frame(m) => HandleKeepsGroups(db, m);
    case Batch(ms) => BatchKeepsInv(db, ms);
    case OpenSingle(a, b, drawn) =>
      if EnsureSingle(db, a, b, drawn).Opened? {
        OpenKeepsAll(db, a, b, drawn);
      }
    case Create(g, owner, name, members, note, draw) =>
      if CreateGroup(db, g, owner, name, members, note, draw).Ok? {
        CreateKeepsInv(db, g, owner, name, members, note, draw);
      }
    case Govern(g, operator, change, note, draw) => ManageKeepsInv(db, g, operator, change, note, draw);
    case Leave(g, u, note, draw) => QuitKeepsInv(db, g, u, note, draw);
    case Presence(online) => PresenceKeepsInv(db, online);
    case SignUp(u) => SignUpKeepsInv(db, u);
  }

  lemma OpenKeepsAll(db: Db, a: Uid, b: Uid, drawn: ConvId)
    requires AllInv(db) && Unused(db, drawn) && CleanUid(a) && CleanUid(b)
    requires EnsureSingle(db, a, b, drawn).Opened?
    ensures AllInv(EnsureSingle(db, a, b, drawn).db)
  {
    hide SeqInv, SingleInv, GroupInv;
    OpenKeepsInv(db, a, b, drawn);
    OpenKeepsGroups(db, a, b, drawn);
  }

  lemma PresenceKeepsInv(db: Db, online: map<Uid, OnlineValue>)
    requires AllInv(db)
    ensures AllInv(db.(online := online))
  {
    var d := db.(online := online);
    SameNumbers(db, d);
    hide SeqInv, Keyed, FindMember;
    forall x | x in d.groups
      ensures GroupOk(d, x)
    {
      assert GroupOk(db, x);
    }
  }

  lemma SignUpKeepsGroups(db: Db, u: Uid)
    requires GroupInv(db)
    ensures GroupInv(db.(users := db.users + {u}))
  {
    hide Keyed, FindMember;
    var d := db.(users := db.users + {u});
    forall x | x in d.groups
      ensures GroupOk(d, x)
    {
      assert GroupOk(db, x);
    }
  }

  lemma SignUpKeepsInv(db: Db, u: Uid)
    requires AllInv(db) && CleanUid(u)
    ensures AllInv(db.(users := db.users + {u}))
  {
    SameNumbers(db, db.(users := db.users + {u}));
    hide SeqInv, GroupInv;
    SignUpKeepsGroups(db, u);
  }

  function Run(db: Db, steps: seq<Step>): Db {
    if steps == [] then db else Perform(Run(db, steps[..|steps| - 1]), steps[|steps| - 1])
  }

  ghost predicate LawfulRun(db: Db, steps: seq<Step>) {
    steps == [] || (LawfulRun(db, steps[..|steps| - 1]) && Lawful(Run(db, steps[..|steps| - 1]), steps[|steps| - 1]))
  }

  /** Over every run mixing single frames, batches, conversations and group operations the stored
      numbers of each conversation are exactly 1..counter without a gap or a repeat and last_seq is
      the counter; every single conversation has its two members; and every group has its owner as
      an active member, alone in the owner's role, and its active members as the conversation's. */
  lemma {:induction false} RunKeepsInv(db: Db, steps: seq<Step>)
    requires AllInv(db) && LawfulRun(db, steps)
    ensures AllInv(Run(db, steps))
  {
    hide SeqInv, SingleInv, GroupInv;
    if steps != [] {
      RunKeepsInv(db, steps[..|steps| - 1]);
      StepKeepsInv(Run(db, steps[..|steps| - 1]), steps[|steps| - 1]);
    }
  }

  const EMPTY := Db({}, map[], map[], map[], {}, map[], map[], map[], map[])

  /** The same from empty tables, with the numbers of a conversation spelt out. */
  lemma {:induction false} NumbersAreDense(steps: seq<Step>, c: ConvId)
    requires LawfulRun(EMPTY, steps)
    ensures var db := Run(EMPTY, steps);
      && (forall n :: 1 <= n <= Counter(db, c) <==> Numbered(db, c, n))
      && (forall i, j | i in db.messages && j in db.messages && db.messages[i].convId == db.messages[j].convId ::
            db.messages[i].seqNo == db.messages[j].seqNo ==> i == j)
      && (c in db.convs ==> db.convs[c].lastSeq == Counter(db, c))
  {
    RunKeepsInv(EMPTY, steps);
  }
}
