// The story of one push: what was asked, in which order, and what came back. The rules below speak of
// the story alone; the run of the worker follows them, and nothing else does.
module DeliveryStory {
  import opened Wrappers
  import opened Chat
  import opened Routing
  import opened Delivery

  /** A look-up with its verdict, a call with its reply, or a backoff. */
  datatype Entry =
    | Looked(verdict: Option<Verdict>)
    | Called(addr: Verdict, reply: Reply)
    | Waited(cancelled: bool)

  // ---------------------------------------------------------------- the rules

  /** How many backoffs come before the i-th entry. */
  function Waits(s: seq<Entry>, i: nat): nat
    requires i <= |s|
  {
    if i == 0 then 0 else Waits(s, i - 1) + if s[i - 1].Waited? then 1 else 0
  }

  predicate NotFoundAt(s: seq<Entry>, j: nat)
    requires j < |s|
  {
    s[j].Called? && s[j].reply == NotFound
  }

  /** There has been a not_found in this attempt already. */
  predicate Corrected(s: seq<Entry>, i: nat)
    requires i <= |s|
  {
    exists j :: 0 <= j < i && NotFoundAt(s, j) && Waits(s, j) == Waits(s, i)
  }

  /** A look-up or a call that ended in an error. */
  predicate Failed(e: Entry) {
    e == Looked(None) || (e.Called? && e.reply == RpcError)
  }

  /** Which entry may come next: a call goes to the address just looked up; the first not_found of an
      attempt is followed by a look-up; a failure in the first or second attempt by a backoff; and
      after that comes a look-up, unless the backoff was cancelled. */
  predicate Follows(s: seq<Entry>, i: nat)
    requires i + 1 < |s|
  {
    match s[i]
    case Waited(cancelled) => !cancelled && s[i + 1].Looked?
    case Looked(None) => s[i + 1].Waited? && Waits(s, i) < 2
    case Looked(Some(addr)) => addr != "" && s[i + 1].Called? && s[i + 1].addr == addr
    case Called(_, RpcError) => s[i + 1].Waited? && Waits(s, i) < 2
    case Called(_, NotFound) => s[i + 1].Looked? && !Corrected(s, i)
    case Called(_, _) => false
  }

  /** The push is given up: the server refused it, or it was not found again after its correction, or
      the third attempt failed, or the backoff was cancelled. */
  predicate GivenUp(s: seq<Entry>)
    requires s != []
  {
    var i := |s| - 1;
    match s[i]
    case Waited(cancelled) => cancelled
    case Looked(verdict) => verdict == None && Waits(s, i) == 2
    case Called(_, Refused) => true
    case Called(_, NotFound) => Corrected(s, i)
    case Called(_, RpcError) => Waits(s, i) == 2
    case Called(_, Accepted) => false
  }

  predicate EndsWith(s: seq<Entry>, fate: Fate)
    requires s != []
  {
    match fate
    case Delivered => s[|s| - 1].Called? && s[|s| - 1].reply == Accepted
    case Offline => s[|s| - 1] == Looked(Some(""))
    case Dropped => GivenUp(s)
  }

  /** The answer the worker would get to its i-th question; after the end of the script everything
      fails. */
  function AnswerAt(answers: seq<Answer>, i: nat): Answer {
    if i < |answers| then answers[i] else Answer(None, RpcError, false)
  }

  predicate Tells(s: seq<Entry>, answers: seq<Answer>) {
    forall i :: 0 <= i < |s| ==>
      match s[i]
      case Looked(verdict) => verdict == AnswerAt(answers, i).verdict
      case Called(_, reply) => reply == AnswerAt(answers, i).reply
      case Waited(cancelled) => cancelled == AnswerAt(answers, i).cancelled
  }

  predicate Lawful(s: seq<Entry>, fate: Fate, answers: seq<Answer>) {
    && s != [] && s[0].Looked? && Tells(s, answers)
    && (forall i :: 0 <= i < |s| - 1 ==> Follows(s, i))
    && EndsWith(s, fate)
  }

  /** What the worker does while the story unfolds: before a backoff, and after a not_found that will be
      corrected, it drops the route. */
  function Emits(p: Push, s: seq<Entry>): seq<Action> {
    if s == [] then []
    else
      (match s[0]
       case Waited(_) => [Invalidate(p.toUid)]
       case Looked(_) => [Lookup(p.toUid)]
       case Called(addr, reply) => [Unary(addr, p)] + if reply == NotFound && |s| > 1 then [Invalidate(p.toUid)] else [])
      + Emits(p, s[1..])
  }

  function Rest(answers: seq<Answer>, n: nat): seq<Answer> {
    if n <= |answers| then answers[n..] else []
  }

  // ---------------------------------------------------------------- the story of a run

  function EntryOf(t: Task, a: Answer): Entry
    requires t.Task?
  {
    match t.stage
    case Wait => Waited(a.cancelled)
    case Look => Looked(a.verdict)
    case Call(addr) => Called(addr, a.reply)
  }

  function StateAt(t: Task, answers: seq<Answer>, i: nat): Task {
    if i == 0 then t
    else
      var u := StateAt(t, answers, i - 1);
      if u.Ended? then u else StepTask(u, AnswerAt(answers, i - 1))
  }

  function Story(t: Task, answers: seq<Answer>): (s: seq<Entry>)
    requires Sane(t)
    decreases Fuel(t)
  {
    if t.Ended? then []
    else
      StepTaskShrinks(t, First(answers));
      [EntryOf(t, First(answers))] + Story(StepTask(t, First(answers)), Later(answers))
  }

  lemma {:induction false} StateShifts(t: Task, answers: seq<Answer>, i: nat)
    requires t.Task?
    ensures StateAt(t, answers, i + 1) == StateAt(StepTask(t, First(answers)), Later(answers), i)
  {
    hide StepTask;
    assert AnswerAt(answers, 0) == First(answers);
    if i == 0 {
      assert StateAt(t, answers, 0) == t;
    } else {
      StateShifts(t, answers, i - 1);
      assert AnswerAt(answers, i) == AnswerAt(Later(answers), i - 1);
    }
  }

  lemma {:induction false} StoryStep(t: Task, answers: seq<Answer>)
    requires Sane(t)
    ensures t.Ended? ==> Story(t, answers) == []
    ensures t.Task? ==>
      && Sane(StepTask(t, First(answers))) && Fuel(StepTask(t, First(answers))) < Fuel(t)
      && Story(t, answers) == [EntryOf(t, First(answers))] + Story(StepTask(t, First(answers)), Later(answers))
  {
    if t.Task? {
      StepTaskShrinks(t, First(answers));
    }
  }

  /** The story goes through the states of the task, and uses one answer for each entry. */
  lemma {:induction false} StoryStates(p: Push, t: Task, answers: seq<Answer>)
    requires Sane(t)
    ensures var s, r := Story(t, answers), RunTask(p, t, answers);
      && StateAt(t, answers, |s|) == Ended(r.fate)
      && (forall i :: 0 <= i < |s| ==>
            StateAt(t, answers, i).Task? && s[i] == EntryOf(StateAt(t, answers, i), AnswerAt(answers, i)))
      && r.left == Rest(answers, |s|)
    decreases Fuel(t)
  {
    StoryStep(t, answers);
    if t.Ended? {
      Ends(p, t.fate, answers);
    } else {
      RunStep(p, t, answers);
      hide RunTask, StepTask, Story, StateAt, Fuel;
      var next, rest := StepTask(t, First(answers)), Story(StepTask(t, First(answers)), Later(answers));
      StoryStates(p, next, Later(answers));
      var s := Story(t, answers);
      assert AnswerAt(answers, 0) == First(answers);
      FirstState(t, answers);
      StateShifts(t, answers, |rest|);
      forall i | 0 <= i < |s|
        ensures StateAt(t, answers, i).Task? && s[i] == EntryOf(StateAt(t, answers, i), AnswerAt(answers, i))
      {
        if i > 0 {
          StateShifts(t, answers, i - 1);
          assert s[i] == rest[i - 1] && AnswerAt(answers, i) == AnswerAt(Later(answers), i - 1);
        }
      }
    }
  }

  lemma NextState(t: Task, answers: seq<Answer>, i: nat)
    requires StateAt(t, answers, i).Task?
    ensures StateAt(t, answers, i + 1) == StepTask(StateAt(t, answers, i), AnswerAt(answers, i))
  {
  }

  lemma {:induction false} FirstState(t: Task, answers: seq<Answer>)
    ensures StateAt(t, answers, 0) == t
  {
  }

  lemma {:induction false} RunEmits(p: Push, t: Task, answers: seq<Answer>)
    requires Sane(t)
    ensures RunTask(p, t, answers).actions == Emits(p, Story(t, answers))
    decreases Fuel(t)
  {
    StoryStep(t, answers);
    if t.Ended? {
      Ends(p, t.fate, answers);
    } else {
      RunStep(p, t, answers);
      var a := First(answers);
      var next := StepTask(t, a);
      RunEmits(p, next, Later(answers));
      StoryStep(next, Later(answers));
      var s, rest := Story(t, answers), Story(next, Later(answers));
      assert s[1..] == rest && s[0] == EntryOf(t, a);
      assert |s| > 1 <==> next.Task?;
      hide RunTask, Story, First, Later, Fuel;
    }
  }

  // ---------------------------------------------------------------- the run keeps the rules

  lemma {:induction false} WaitsGrow(s: seq<Entry>, i: nat, j: nat)
    requires i <= j <= |s|
    ensures Waits(s, i) <= Waits(s, j)
  {
    if i < j {
      WaitsGrow(s, i, j - 1);
    }
  }

  lemma AfterWait(s: seq<Entry>, i: nat)
    requires i < |s| && s[i].Waited?
    ensures !Corrected(s, i + 1)
  {
    forall j | 0 <= j <= i
      ensures Waits(s, j) < Waits(s, i + 1)
    {
      WaitsGrow(s, j, i);
    }
  }

  lemma AfterOther(s: seq<Entry>, i: nat)
    requires i < |s| && !s[i].Waited?
    ensures Corrected(s, i + 1) <==> Corrected(s, i) || NotFoundAt(s, i)
  {
    if NotFoundAt(s, i) {
      assert Waits(s, i) == Waits(s, i + 1);
    }
    if Corrected(s, i) {
      var j :| 0 <= j < i && NotFoundAt(s, j) && Waits(s, j) == Waits(s, i);
      assert Waits(s, j) == Waits(s, i + 1);
    }
  }

  /** The state in terms of the story so far. */
  predicate Fits(t: Task, s: seq<Entry>, i: nat)
    requires i <= |s|
  {
    t.Task? ==>
      && t.attempt == Waits(s, i) + (if t.stage == Wait then 2 else 1)
      && (t.corrected <==> t.stage != Wait && Corrected(s, i))
  }

  lemma StepFits(s: seq<Entry>, i: nat, t: Task, a: Answer)
    requires i < |s| && t.Task? && Fits(t, s, i) && s[i] == EntryOf(t, a)
    ensures Fits(StepTask(t, a), s, i + 1)
  {
    if s[i].Waited? {
      AfterWait(s, i);
    } else {
      AfterOther(s, i);
    }
    hide Corrected;
  }

  lemma {:induction false} StatesFit(answers: seq<Answer>, i: nat)
    requires i <= |Story(FIRST, answers)|
    ensures Fits(StateAt(FIRST, answers, i), Story(FIRST, answers), i)
  {
    var s := Story(FIRST, answers);
    hide StepTask, Story, Fits;
    if i == 0 {
      NothingYet(s);
    } else {
      StatesFit(answers, i - 1);
      StoryStates(SOME_PUSH, FIRST, answers);
      StepFits(s, i - 1, StateAt(FIRST, answers, i - 1), AnswerAt(answers, i - 1));
    }
  }

  lemma NothingYet(s: seq<Entry>)
    ensures Fits(FIRST, s, 0)
  {
  }

  const SOME_PUSH := Push(NoId, "", "", 0, "", "", Single, "", false)

  lemma StepFollows(s: seq<Entry>, i: nat, t: Task, a: Answer, next: Answer)
    requires i + 1 < |s| && t.Task? && Fits(t, s, i) && s[i] == EntryOf(t, a)
    requires StepTask(t, a).Task? && s[i + 1] == EntryOf(StepTask(t, a), next)
    ensures Follows(s, i)
  {
    hide Corrected;
  }

  lemma LastEnds(s: seq<Entry>, t: Task, a: Answer)
    requires s != [] && t.Task? && Sane(t) && Fits(t, s, |s| - 1) && s[|s| - 1] == EntryOf(t, a)
    requires StepTask(t, a).Ended?
    ensures EndsWith(s, StepTask(t, a).fate)
  {
    hide Corrected;
  }

  lemma {:induction false} StatesAreSane(answers: seq<Answer>, i: nat)
    ensures Sane(StateAt(FIRST, answers, i))
  {
    if i > 0 {
      StatesAreSane(answers, i - 1);
      if StateAt(FIRST, answers, i - 1).Task? {
        StepTaskShrinks(StateAt(FIRST, answers, i - 1), AnswerAt(answers, i - 1));
      }
    }
  }

  lemma {:induction false} StoryFollows(p: Push, answers: seq<Answer>, i: nat)
    requires i + 1 < |Story(FIRST, answers)|
    ensures Follows(Story(FIRST, answers), i)
  {
    hide RunTask, Story, Fits, Follows, StepTask, StateAt, EntryOf, AnswerAt, Rest;
    var s := Story(FIRST, answers);
    StoryStates(p, FIRST, answers);
    StatesFit(answers, i);
    NextState(FIRST, answers, i);
    StepFollows(s, i, StateAt(FIRST, answers, i), AnswerAt(answers, i), AnswerAt(answers, i + 1));
  }

  lemma {:induction false} StoryEnds(p: Push, answers: seq<Answer>)
    ensures Story(FIRST, answers) != [] && Story(FIRST, answers)[0].Looked?
    ensures EndsWith(Story(FIRST, answers), RunTask(p, FIRST, answers).fate)
  {
    FirstState(FIRST, answers);
    hide RunTask, Story, Fits, StepTask, EndsWith, StateAt, Rest, AnswerAt;
    var s := Story(FIRST, answers);
    StoryStates(p, FIRST, answers);
    var k := |s| - 1;
    StatesFit(answers, k);
    StatesAreSane(answers, k);
    NextState(FIRST, answers, k);
    LastEnds(s, StateAt(FIRST, answers, k), AnswerAt(answers, k));
  }

  lemma {:induction false} StoryTells(p: Push, answers: seq<Answer>)
    ensures Tells(Story(FIRST, answers), answers)
  {
    hide RunTask, Story, StateAt;
    StoryStates(p, FIRST, answers);
  }

  /** Every run of the worker for a push tells a story that follows the rules, ends in the fate the
      rules say, does what the story says and uses one answer an entry. */
  lemma {:induction false} RunIsLawful(p: Push, answers: seq<Answer>)
    ensures var s, r := Story(FIRST, answers), RunTask(p, FIRST, answers);
      Lawful(s, r.fate, answers) && r.actions == Emits(p, s) && r.left == Rest(answers, |s|)
  {
    hide RunTask, Story, Follows, EndsWith, Emits, Rest, Tells;
    RunEmits(p, FIRST, answers);
    StoryStates(p, FIRST, answers);
    StoryTells(p, answers);
    StoryEnds(p, answers);
    forall i | 0 <= i < |Story(FIRST, answers)| - 1 {
      StoryFollows(p, answers, i);
    }
  }

  // ---------------------------------------------------------------- the rules leave no choice

  lemma {:induction false} SameWaits(s: seq<Entry>, z: seq<Entry>, i: nat)
    requires i <= |s| && i <= |z| && s[..i] == z[..i]
    ensures Waits(s, i) == Waits(z, i)
  {
    if i > 0 {
      assert s[..i][..i - 1] == s[..i - 1] && z[..i][..i - 1] == z[..i - 1];
      assert s[i - 1] == s[..i][i - 1] && z[i - 1] == z[..i][i - 1];
      SameWaits(s, z, i - 1);
    }
  }

  lemma SameCorrected(s: seq<Entry>, z: seq<Entry>, i: nat)
    requires i <= |s| && i <= |z| && s[..i] == z[..i]
    ensures Corrected(s, i) ==> Corrected(z, i)
  {
    SameWaits(s, z, i);
    if Corrected(s, i) {
      var j :| 0 <= j < i && NotFoundAt(s, j) && Waits(s, j) == Waits(s, i);
      assert s[..i][..j] == s[..j] && z[..i][..j] == z[..j] && s[..i][j] == s[j] && z[..i][j] == z[j];
      SameWaits(s, z, j);
      assert NotFoundAt(z, j);
    }
  }

  /** Where one story goes on the other does, with the same entry. */
  lemma GoesOn(s: seq<Entry>, f: Fate, z: seq<Entry>, g: Fate, answers: seq<Answer>, i: nat)
    requires Lawful(s, f, answers) && Lawful(z, g, answers) && 0 < i < |s| && i <= |z| && s[..i] == z[..i]
    ensures i < |z| && z[i] == s[i]
  {
    SameWaits(s, z, i - 1) by { assert s[..i][..i - 1] == s[..i - 1] && z[..i][..i - 1] == z[..i - 1]; }
    SameCorrected(s, z, i - 1) by { assert s[..i][..i - 1] == s[..i - 1] && z[..i][..i - 1] == z[..i - 1]; }
    SameCorrected(z, s, i - 1) by { assert s[..i][..i - 1] == s[..i - 1] && z[..i][..i - 1] == z[..i - 1]; }
    hide Corrected, Waits;
    assert s[i - 1] == s[..i][i - 1] == z[..i][i - 1] == z[i - 1];
    assert Follows(s, i - 1);
    if i < |z| {
      assert Follows(z, i - 1);
    }
  }

  lemma {:induction false} SamePrefix(s: seq<Entry>, f: Fate, z: seq<Entry>, g: Fate, answers: seq<Answer>, i: nat)
    requires Lawful(s, f, answers) && Lawful(z, g, answers) && 0 < i <= |s|
    ensures i <= |z| && s[..i] == z[..i]
  {
    if i == 1 {
      assert s[0] == z[0];
    } else {
      hide Lawful;
      SamePrefix(s, f, z, g, answers, i - 1);
      GoesOn(s, f, z, g, answers, i - 1);
      assert s[..i] == s[..i - 1] + [s[i - 1]] && z[..i] == z[..i - 1] + [z[i - 1]];
    }
  }

  /** For any answers there is one story that follows the rules: the worker's. */
  lemma {:induction false} StoryIsUnique(p: Push, answers: seq<Answer>, s: seq<Entry>, fate: Fate)
    requires Lawful(s, fate, answers)
    ensures var r := RunTask(p, FIRST, answers);
      fate == r.fate && r.actions == Emits(p, s) && r.left == Rest(answers, |s|)
  {
    hide Lawful, Follows, EndsWith, Emits, Rest, Tells, RunTask, Story;
    RunIsLawful(p, answers);
    var z, g := Story(FIRST, answers), RunTask(p, FIRST, answers).fate;
    NotEmpty(s, fate, answers);
    NotEmpty(z, g, answers);
    SamePrefix(s, fate, z, g, answers, |s|);
    SamePrefix(z, g, s, fate, answers, |z|);
    assert s == z;
    OneFate(s, fate, g);
  }

  lemma NotEmpty(s: seq<Entry>, fate: Fate, answers: seq<Answer>)
    requires Lawful(s, fate, answers)
    ensures s != [] && EndsWith(s, fate)
  {
    hide EndsWith;
  }

  lemma OneFate(s: seq<Entry>, fate: Fate, other: Fate)
    requires s != [] && EndsWith(s, fate) && EndsWith(s, other)
    ensures fate == other
  {
  }

  // ---------------------------------------------------------------- the pushes of one batch call

  /** What becomes of one push of a batch. */
  datatype Part = Part(fate: Fate, story: seq<Entry>, actions: seq<Action>)

  /** The call brought back one result for each push. */
  predicate Usable(reply: BatchReply, n: nat) {
    reply.Results? && |reply.replies| == n
  }

  /** An accepted push is delivered and a refused one dropped without further ado. One that was not
      found has its route dropped and is sent out by itself; so is every push, but with the route left
      alone, when the call failed or its results are incomplete. */
  predicate PartOf(p: Push, reply: BatchReply, n: nat, i: nat, part: Part, answers: seq<Answer>)
    requires i < n
  {
    if Usable(reply, n) && reply.replies[i] == Accepted then part == Part(Delivered, [], [])
    else if Usable(reply, n) && reply.replies[i] != NotFound then part == Part(Dropped, [], [])
    else
      && Lawful(part.story, part.fate, answers)
      && part.actions == (if Usable(reply, n) then [Invalidate(p.toUid)] else []) + Emits(p, part.story)
  }

  /** The answers the first n parts have used up. */
  function Used(parts: seq<Part>, n: nat): nat
    requires n <= |parts|
  {
    if n == 0 then 0 else Used(parts, n - 1) + |parts[n - 1].story|
  }

  function Acts(parts: seq<Part>): seq<Action> {
    if parts == [] then [] else Acts(parts[..|parts| - 1]) + parts[|parts| - 1].actions
  }

  /** The pushes that ended in a fate, in order. */
  function Those(pushes: seq<Push>, parts: seq<Part>, fate: Fate): seq<Push>
    requires |parts| == |pushes|
  {
    if pushes == [] then []
    else
      var k := |pushes| - 1;
      Those(pushes[..k], parts[..k], fate) + if parts[k].fate == fate then [pushes[k]] else []
  }

  predicate Filed(before: Ledger, after: Ledger, pushes: seq<Push>, parts: seq<Part>)
    requires |parts| == |pushes|
  {
    && after.delivered == before.delivered + Those(pushes, parts, Delivered)
    && after.offline == before.offline + Those(pushes, parts, Offline)
    && after.dropped == before.dropped + Those(pushes, parts, Dropped)
  }

  lemma RestOfRest(answers: seq<Answer>, a: nat, b: nat)
    ensures Rest(Rest(answers, a), b) == Rest(answers, a + b)
  {
  }

  lemma ItemIsPart(p: Push, reply: BatchReply, n: nat, i: nat, item: Item, answers: seq<Answer>) returns (part: Part)
    requires i < n && item == if Usable(reply, n) then ItemFor(p, reply.replies[i]) else Item(p, FIRST)
    ensures PartOf(p, reply, n, i, part, answers)
    ensures var r := RunTask(p, item.task, answers);
      && r.fate == part.fate && r.left == Rest(answers, |part.story|)
      && part.actions == (if Usable(reply, n) && item.task == FIRST then [Invalidate(p.toUid)] else []) + r.actions
  {
    hide RunTask, Lawful, Emits, Story;
    if item.task == FIRST {
      RunIsLawful(p, answers);
      var r := RunTask(p, FIRST, answers);
      part := Part(r.fate, Story(FIRST, answers), (if Usable(reply, n) then [Invalidate(p.toUid)] else []) + r.actions);
    } else {
      Ends(p, item.task.fate, answers);
      part := Part(item.task.fate, [], []);
    }
  }

  lemma ItemKeepsPush(p: Push, reply: BatchReply, n: nat, i: nat, item: Item)
    requires i < n && item == if Usable(reply, n) then ItemFor(p, reply.replies[i]) else Item(p, FIRST)
    ensures item.push == p
  {
  }

  lemma FileOne(before: Ledger, mid: Ledger, pushes: seq<Push>, parts: seq<Part>)
    requires pushes != [] && |parts| == |pushes|
    requires var k := |pushes| - 1; Filed(before, mid, pushes[..k], parts[..k])
    ensures Filed(before, Record(mid, pushes[|pushes| - 1], parts[|parts| - 1].fate), pushes, parts)
  {
  }

  lemma {:induction false} UsedPrefix(parts: seq<Part>, more: seq<Part>, n: nat)
    requires n <= |parts|
    ensures Used(parts + more, n) == Used(parts, n)
  {
    if n > 0 {
      UsedPrefix(parts, more, n - 1);
    }
  }

  lemma {:induction false} WalkStep(l: Ledger, items: seq<Item>, fromBatch: bool, answers: seq<Answer>)
    requires items != [] && forall it :: it in items ==> Sane(it.task)
    ensures var k := |items| - 1;
      var before := WalkItems(l, items[..k], fromBatch, answers);
      var r := RunTask(items[k].push, items[k].task, before.left);
      WalkItems(l, items, fromBatch, answers) ==
        Walk(Record(before.ledger, items[k].push, r.fate),
             before.actions
             + (if fromBatch && items[k].task == FIRST then [Invalidate(items[k].push.toUid)] else []) + r.actions,
             r.left)
  {
    hide RunTask, Record;
  }

  /** Every part so far is what its push and its answers make it. */
  predicate AllParts(pushes: seq<Push>, reply: BatchReply, n: nat, parts: seq<Part>, answers: seq<Answer>)
    requires |parts| == |pushes| <= n
  {
    forall i :: 0 <= i < |parts| ==> PartAt(pushes, reply, n, parts, answers, i)
  }

  predicate PartAt(pushes: seq<Push>, reply: BatchReply, n: nat, parts: seq<Part>, answers: seq<Answer>, i: nat)
    requires i < |parts| == |pushes| <= n
  {
    PartOf(pushes[i], reply, n, i, parts[i], Rest(answers, Used(parts, i)))
  }

  lemma PartStays(pushes: seq<Push>, reply: BatchReply, n: nat, init: seq<Part>, part: Part, answers: seq<Answer>,
                  i: nat)
    requires i < |init| && |init| + 1 == |pushes| <= n && PartAt(pushes[..|init|], reply, n, init, answers, i)
    ensures PartAt(pushes, reply, n, init + [part], answers, i)
  {
    hide PartOf, Rest, Used;
    UsedPrefix(init, [part], i);
    assert pushes[..|init|][i] == pushes[i] && (init + [part])[i] == init[i];
  }

  lemma {:induction false} OnePartMore(pushes: seq<Push>, reply: BatchReply, n: nat, init: seq<Part>, part: Part,
                                       answers: seq<Answer>)
    requires |init| + 1 == |pushes| <= n && AllParts(pushes[..|init|], reply, n, init, answers)
    requires PartOf(pushes[|init|], reply, n, |init|, part, Rest(answers, Used(init, |init|)))
    ensures AllParts(pushes, reply, n, init + [part], answers)
    ensures Used(init + [part], |init| + 1) == Used(init, |init|) + |part.story|
  {
    hide PartOf, Rest, PartAt;
    var k, parts := |init|, init + [part];
    UsedPrefix(init, [part], k);
    forall i | 0 <= i < |parts|
      ensures PartAt(pushes, reply, n, parts, answers, i)
    {
      if i < k {
        PartStays(pushes, reply, n, init, part, answers, i);
      } else {
        LastPart(pushes, reply, n, init, part, answers);
      }
    }
  }

  lemma {:induction false} LastPart(pushes: seq<Push>, reply: BatchReply, n: nat, init: seq<Part>, part: Part,
                                    answers: seq<Answer>)
    requires |init| + 1 == |pushes| <= n
    requires PartOf(pushes[|init|], reply, n, |init|, part, Rest(answers, Used(init, |init|)))
    ensures PartAt(pushes, reply, n, init + [part], answers, |init|)
  {
    hide PartOf, Rest, Used;
    UsedPrefix(init, [part], |init|);
  }

  lemma {:induction false} WalkUnfolds(l: Ledger, items: seq<Item>, pushes: seq<Push>, reply: BatchReply, n: nat,
                                       answers: seq<Answer>) returns (parts: seq<Part>)
    requires (forall it :: it in items ==> Sane(it.task)) && |items| == |pushes| <= n
    requires forall i :: 0 <= i < |items| ==>
      items[i] == if Usable(reply, n) then ItemFor(pushes[i], reply.replies[i]) else Item(pushes[i], FIRST)
    ensures |parts| == |pushes| && AllParts(pushes, reply, n, parts, answers)
    ensures var w := WalkItems(l, items, Usable(reply, n), answers);
      Filed(l, w.ledger, pushes, parts) && w.actions == Acts(parts) && w.left == Rest(answers, Used(parts, |parts|))
  {
    hide RunTask, PartOf, ItemFor, Record, Usable, Rest, Filed, AllParts, WalkItems, Used, Sane, Acts;
    if items == [] {
      parts := [];
      NothingUsed(l, answers, Usable(reply, n));
      NoParts(pushes, reply, n, answers);
    } else {
      var k := |items| - 1;
      var init := WalkUnfolds(l, items[..k], pushes[..k], reply, n, answers);
      var before := WalkItems(l, items[..k], Usable(reply, n), answers);
      WalkStep(l, items, Usable(reply, n), answers);
      ItemKeepsPush(pushes[k], reply, n, k, items[k]);
      var part := ItemIsPart(pushes[k], reply, n, k, items[k], before.left);
      parts := init + [part];
      assert parts[..k] == init;
      FileOne(l, before.ledger, pushes, parts);
      RestOfRest(answers, Used(init, k), |part.story|);
      OnePartMore(pushes, reply, n, init, part, answers);
      ActsMore(init, part);
      JoinActs(before.actions, if Usable(reply, n) && items[k].task == FIRST then [Invalidate(pushes[k].toUid)] else [],
               RunTask(items[k].push, items[k].task, before.left).actions);
    }
  }

  lemma JoinActs(a: seq<Action>, b: seq<Action>, c: seq<Action>)
    ensures a + (b + c) == a + b + c
  {
  }

  lemma {:induction false} ActsMore(init: seq<Part>, part: Part)
    ensures Acts(init + [part]) == Acts(init) + part.actions
  {
    assert (init + [part])[..|init|] == init;
  }

  lemma NoParts(pushes: seq<Push>, reply: BatchReply, n: nat, answers: seq<Answer>)
    requires pushes == []
    ensures AllParts(pushes, reply, n, [], answers)
  {
  }

  lemma {:induction false} NothingUsed(l: Ledger, answers: seq<Answer>, fromBatch: bool)
    ensures WalkItems(l, [], fromBatch, answers) == Walk(l, [], Rest(answers, Used([], 0)))
    ensures Filed(l, l, [], []) && Acts([]) == []
  {
  }

  /** The whole of one batch call: each push goes its own way as the results say, in order, and the
      lists grow by exactly the pushes that ended in the fate they stand for. */
  lemma BatchUnfolds(l: Ledger, addr: Verdict, pushes: seq<Push>, reply: BatchReply, answers: seq<Answer>)
    returns (parts: seq<Part>)
    ensures |parts| == |pushes|
    ensures var w := DeliverBatch(l, addr, pushes, reply, answers);
      Filed(l, w.ledger, pushes, parts) && w.actions == [BatchCall(addr, pushes)] + Acts(parts)
    ensures AllParts(pushes, reply, |pushes|, parts, answers)
  {
    hide RunTask, PartOf, Record, Rest, ItemFor, Filed, AllParts, Used, Acts, WalkItems;
    parts := WalkUnfolds(l, Sorted(pushes, reply), pushes, reply, |pushes|, answers);
  }

  lemma {:induction false} ActsAt(parts: seq<Part>, i: nat) returns (at: nat)
    requires i < |parts|
    ensures at + |parts[i].actions| <= |Acts(parts)| && Acts(parts)[at..at + |parts[i].actions|] == parts[i].actions
  {
    var k := |parts| - 1;
    if i == k {
      at := |Acts(parts[..k])|;
    } else {
      at := ActsAt(parts[..k], i);
      assert Acts(parts[..k]) == Acts(parts)[..|Acts(parts[..k])|];
    }
  }

  predicate Relooks(actions: seq<Action>, k: nat, u: Uid) {
    k + 1 < |actions| && actions[k] == Invalidate(u) && actions[k + 1] == Lookup(u)
  }

  /** A push that the batch call did not find is never just dropped: behind the call the worker drops
      its route and looks it up afresh. */
  lemma NotFoundIsCorrected(l: Ledger, addr: Verdict, pushes: seq<Push>, reply: BatchReply, answers: seq<Answer>,
                            i: nat)
    requires Usable(reply, |pushes|) && i < |pushes| && reply.replies[i] == NotFound
    ensures var actions := DeliverBatch(l, addr, pushes, reply, answers).actions;
      exists k :: 0 < k < |actions| - 1 && Relooks(actions, k, pushes[i].toUid)
  {
    hide DeliverBatch, Acts, Used, Filed, PartOf, Rest, Relooks;
    var parts := BatchUnfolds(l, addr, pushes, reply, answers);
    var at := ActsAt(parts, i);
    assert PartAt(pushes, reply, |pushes|, parts, answers, i);
    var part, all := parts[i], Acts(parts);
    CorrectedPart(pushes[i], reply, |pushes|, i, part, Rest(answers, Used(parts, i)));
    RelooksWithin(part.actions, all, at, 0, pushes[i].toUid);
    var actions := DeliverBatch(l, addr, pushes, reply, answers).actions;
    assert actions[1..1 + |all|] == all;
    RelooksWithin(all, actions, 1, at, pushes[i].toUid);
  }

  lemma RelooksWithin(part: seq<Action>, all: seq<Action>, from: nat, k: nat, u: Uid)
    requires from + |part| <= |all| && all[from..from + |part|] == part && Relooks(part, k, u)
    ensures Relooks(all, from + k, u)
  {
    assert all[from + k] == all[from..from + |part|][k] && all[from + k + 1] == all[from..from + |part|][k + 1];
  }

  lemma CorrectedPart(p: Push, reply: BatchReply, n: nat, i: nat, part: Part, answers: seq<Answer>)
    requires Usable(reply, n) && i < n && reply.replies[i] == NotFound && PartOf(p, reply, n, i, part, answers)
    ensures Relooks(part.actions, 0, p.toUid)
  {
    hide Follows, EndsWith, Tells;
  }
}
