// What the deliver worker does with one batch of pushes, as functions of the answers it gets from the
// route cache and from the chat servers.
module Delivery {
  import opened Wrappers
  import opened Chat
  import opened Routing

  const RELAY_ATTEMPTS := 3

  /** How one push ends. */
  datatype Fate = Delivered | Offline | Dropped

  // ---------------------------------------------------------------- one push, call by call

  /** What a call to a server brings back: an RPC error, or a result with a reason. */
  datatype Reply = RpcError | Accepted | NotFound | Refused

  /** The answer to whatever the worker asks next. */
  datatype Answer = Answer(verdict: Option<Verdict>, reply: Reply, cancelled: bool)

  /** Where a push is within its retries: waiting out the backoff, about to look up the route, or
      about to call a server. `corrected` says that this attempt has been sent on once after a
      not_found. */
  datatype Stage = Wait | Look | Call(addr: Verdict)

  datatype Task = Task(attempt: nat, corrected: bool, stage: Stage) | Ended(fate: Fate)

  /** What the worker does to the outside. */
  datatype Action =
    | Invalidate(uid: Uid)
    | Lookup(uid: Uid)
    | Unary(addr: Verdict, push: Push)
    | BatchCall(addr: Verdict, pushes: seq<Push>)

  const FIRST := Task(1, false, Look)

  function NextAttempt(t: Task): Task
    requires t.Task?
  {
    if t.attempt < RELAY_ATTEMPTS then Task(t.attempt + 1, false, Wait) else Ended(Dropped)
  }

  function StepTask(t: Task, a: Answer): Task
    requires t.Task?
  {
    match t.stage
    case Wait => if a.cancelled then Ended(Dropped) else t.(stage := Look)
    case Look =>
      (match a.verdict
       case None => NextAttempt(t)
       case Some(addr) => if addr == "" then Ended(Offline) else t.(stage := Call(addr)))
    case Call(_) =>
      match a.reply
      case RpcError => NextAttempt(t)
      case Accepted => Ended(Delivered)
      case NotFound => if t.corrected then Ended(Dropped) else Task(t.attempt, true, Look)
      case Refused => Ended(Dropped)
  }

  /** What a step does before it gets its answer, and what it does after. */
  function ActionsOf(p: Push, t: Task, a: Answer): seq<Action>
    requires t.Task?
  {
    match t.stage
    case Wait => [Invalidate(p.toUid)]
    case Look => [Lookup(p.toUid)]
    case Call(addr) =>
      [Unary(addr, p)] + if a.reply == NotFound && !t.corrected then [Invalidate(p.toUid)] else []
  }

  predicate Sane(t: Task) {
    t.Task? ==> 1 <= t.attempt <= RELAY_ATTEMPTS && (t.stage == Wait ==> !t.corrected)
  }

  /** How many steps a task can still take. */
  function Fuel(t: Task): nat
    requires Sane(t)
  {
    match t
    case Ended(_) => 0
    case Task(attempt, corrected, stage) =>
      (RELAY_ATTEMPTS - attempt) * 5
      + (if corrected then 0 else 2)
      + (match stage case Wait => 3 case Look => 2 case Call(_) => 1)
  }

  lemma StepTaskShrinks(t: Task, a: Answer)
    requires Sane(t) && t.Task?
    ensures Sane(StepTask(t, a)) && Fuel(StepTask(t, a)) < Fuel(t)
  {
  }

  /** The answers a push uses up; a script that is too short goes on with failures. */
  function First(answers: seq<Answer>): Answer {
    if answers == [] then Answer(None, RpcError, false) else answers[0]
  }

  function Later(answers: seq<Answer>): seq<Answer> {
    if answers == [] then [] else answers[1..]
  }

  datatype Run = Run(fate: Fate, actions: seq<Action>, left: seq<Answer>)

  function RunTask(p: Push, t: Task, answers: seq<Answer>): Run
    requires Sane(t)
    decreases Fuel(t)
  {
    match t
    case Ended(fate) => Run(fate, [], answers)
    case Task(_, _, _) =>
      var a := First(answers);
      StepTaskShrinks(t, a);
      var r := RunTask(p, StepTask(t, a), Later(answers));
      r.(actions := ActionsOf(p, t, a) + r.actions)
  }

  // ---------------------------------------------------------------- calls and corrections

  function UnaryCalls(actions: seq<Action>): nat {
    if actions == [] then 0
    else UnaryCalls(actions[..|actions| - 1]) + if actions[|actions| - 1].Unary? then 1 else 0
  }

  lemma {:induction false} UnaryCallsJoin(a: seq<Action>, b: seq<Action>)
    ensures UnaryCalls(a + b) == UnaryCalls(a) + UnaryCalls(b)
  {
    if b == [] {
      assert a + b == a;
    } else {
      var k := |b| - 1;
      UnaryCallsJoin(a, b[..k]);
      assert (a + b)[..|a + b| - 1] == a + b[..k];
    }
  }

  /** The unary calls a task can still make. */
  function CallsLeft(t: Task): nat
    requires Sane(t)
  {
    match t
    case Ended(_) => 0
    case Task(attempt, corrected, _) => (RELAY_ATTEMPTS - attempt) * 2 + if corrected then 1 else 2
  }

  /** Whatever the answers, a push costs at most six unary calls. */
  lemma {:induction false} CallsAreBounded(p: Push, t: Task, answers: seq<Answer>)
    requires Sane(t)
    ensures UnaryCalls(RunTask(p, t, answers).actions) <= CallsLeft(t) <= 6
    decreases Fuel(t)
  {
    if t.Task? {
      var a := First(answers);
      StepTaskShrinks(t, a);
      CallsAreBounded(p, StepTask(t, a), Later(answers));
      UnaryCallsJoin(ActionsOf(p, t, a), RunTask(p, StepTask(t, a), Later(answers)).actions);
      StepCalls(p, t, a);
    }
  }

  lemma StepCalls(p: Push, t: Task, a: Answer)
    requires Sane(t) && t.Task?
    ensures UnaryCalls(ActionsOf(p, t, a)) == if t.stage.Call? then 1 else 0
    ensures Sane(StepTask(t, a))
    ensures UnaryCalls(ActionsOf(p, t, a)) + CallsLeft(StepTask(t, a)) <= CallsLeft(t)
  {
    match t.stage
    case Call(addr) =>
      OneCall(Unary(addr, p));
      OneCall(Invalidate(p.toUid));
      UnaryCallsJoin([Unary(addr, p)], [Invalidate(p.toUid)]);
    case Wait => OneCall(Invalidate(p.toUid));
    case Look => OneCall(Lookup(p.toUid));
  }

  lemma OneCall(x: Action)
    ensures UnaryCalls([x]) == if x.Unary? then 1 else 0
  {
    assert [x][..0] == [];
  }

  /** No lookup follows a server's answer, or precedes a second one, without an invalidation between:
      every lookup but the first is of a dropped entry. */
  predicate LookupsAreFresh(actions: seq<Action>) {
    forall i :: 0 < i < |actions| && actions[i].Lookup? ==> actions[i - 1] == Invalidate(actions[i].uid)
  }

  /** The first action of a task is a look-up exactly if it is about to look up. */
  predicate Opens(p: Push, t: Task, actions: seq<Action>) {
    if t.Ended? then actions == []
    else actions != [] && (if t.stage == Look then actions[0] == Lookup(p.toUid) else !actions[0].Lookup?)
  }

  lemma StepOpens(p: Push, t: Task, a: Answer)
    requires t.Task?
    ensures Opens(p, t, ActionsOf(p, t, a)) && LookupsAreFresh(ActionsOf(p, t, a))
    ensures var done := ActionsOf(p, t, a);
      StepTask(t, a).Task? && StepTask(t, a).stage == Look ==> done[|done| - 1] == Invalidate(p.toUid)
  {
  }

  lemma FreshJoin(p: Push, t: Task, next: Task, done: seq<Action>, rest: seq<Action>)
    requires t.Task? && Opens(p, t, done) && LookupsAreFresh(done) && Opens(p, next, rest) && LookupsAreFresh(rest)
    requires next.Task? && next.stage == Look ==> done[|done| - 1] == Invalidate(p.toUid)
    ensures LookupsAreFresh(done + rest) && Opens(p, t, done + rest)
  {
    var all: seq<Action> := done + rest;
    forall i | 0 < i < |all| && all[i].Lookup?
      ensures all[i - 1] == Invalidate(all[i].uid)
    {
      if i > |done| {
        assert all[i] == rest[i - |done|] && all[i - 1] == rest[i - |done| - 1];
      }
    }
  }

  lemma {:induction false} RetriesLookUpAfresh(p: Push, t: Task, answers: seq<Answer>)
    requires Sane(t)
    ensures var actions := RunTask(p, t, answers).actions; LookupsAreFresh(actions) && Opens(p, t, actions)
    decreases Fuel(t)
  {
    if t.Ended? {
      Ends(p, t.fate, answers);
    } else {
      RunStep(p, t, answers);
      hide RunTask, StepTask, ActionsOf, LookupsAreFresh, Opens, Later, First, Fuel;
      var a := First(answers);
      var next := StepTask(t, a);
      StepOpens(p, t, a);
      RetriesLookUpAfresh(p, next, Later(answers));
      FreshJoin(p, t, next, ActionsOf(p, t, a), RunTask(p, next, Later(answers)).actions);
    }
  }

  lemma {:induction false} RunStep(p: Push, t: Task, answers: seq<Answer>)
    requires Sane(t) && t.Task?
    ensures Sane(StepTask(t, First(answers))) && Fuel(StepTask(t, First(answers))) < Fuel(t)
    ensures var a, r := First(answers), RunTask(p, StepTask(t, First(answers)), Later(answers));
      RunTask(p, t, answers) == Run(r.fate, ActionsOf(p, t, a) + r.actions, r.left)
  {
    StepTaskShrinks(t, First(answers));
  }

  lemma {:induction false} Ends(p: Push, fate: Fate, answers: seq<Answer>)
    ensures RunTask(p, Ended(fate), answers) == Run(fate, [], answers)
  {
  }

  /** The last thing a run did, and the answer to it: Delivered exactly for an accepted call, Offline
      exactly for a look-up without an address. */
  predicate Decides(fate: Fate, last: Action, a: Answer) {
    && (fate == Delivered <==> last.Unary? && a.reply == Accepted)
    && (fate == Offline <==> last.Lookup? && a.verdict == Some(""))
  }

  lemma LastStepDecides(p: Push, t: Task, a: Answer)
    requires Sane(t) && t.Task? && StepTask(t, a).Ended?
    ensures var done := ActionsOf(p, t, a); done != [] && Decides(StepTask(t, a).fate, done[|done| - 1], a)
  {
  }

  lemma StepActs(p: Push, t: Task, a: Answer)
    requires t.Task?
    ensures ActionsOf(p, t, a) != []
  {
  }

  /** Given enough answers, the fate of a push is decided by its last action and the last answer it
      used. */
  lemma {:induction false} FateIsAnswered(p: Push, t: Task, answers: seq<Answer>)
    requires Sane(t) && t.Task? && |answers| >= Fuel(t)
    ensures var r := RunTask(p, t, answers);
      var used := |answers| - |r.left|;
      && 0 < used && r.left == answers[used..] && r.actions != []
      && Decides(r.fate, r.actions[|r.actions| - 1], answers[used - 1])
    decreases Fuel(t)
  {
    RunStep(p, t, answers);
    assert First(answers) == answers[0] && Later(answers) == answers[1..];
    var next := StepTask(t, answers[0]);
    StepActs(p, t, answers[0]);
    if next.Ended? {
      LastStepDecides(p, t, answers[0]);
      hide *;
      Ends(p, next.fate, answers[1..]);
    } else {
      hide *;
      FateIsAnswered(p, next, answers[1..]);
      var r := RunTask(p, next, answers[1..]);
      var used := |answers| - |r.left|;
      assert answers[1..][used - 1..] == answers[used..];
    }
  }

  // ---------------------------------------------------------------- the pushes for one server

  /** What a batch call brings back: an error or a list of results. */
  datatype BatchReply = BatchError | Results(replies: seq<Reply>)

  /** The pending lists and what was only logged. */
  datatype Ledger = Ledger(delivered: seq<Push>, offline: seq<Push>, dropped: seq<Push>)

  const NOTHING := Ledger([], [], [])

  function Record(l: Ledger, p: Push, fate: Fate): Ledger {
    match fate
    case Delivered => l.(delivered := l.delivered + [p])
    case Offline => l.(offline := l.offline + [p])
    case Dropped => l.(dropped := l.dropped + [p])
  }

  /** A push with the answer of the batch call for it; one without a definite answer is delivered by
      itself. */
  datatype Item = Item(push: Push, task: Task)

  function ItemFor(p: Push, reply: Reply): Item {
    match reply
    case Accepted => Item(p, Ended(Delivered))
    case NotFound => Item(p, FIRST)
    case Refused => Item(p, Ended(Dropped))
    case RpcError => Item(p, Ended(Dropped))
  }

  /** The list after the batch call: an error or a result list of the wrong length sends every push
      out by itself. */
  function Sorted(pushes: seq<Push>, reply: BatchReply): (items: seq<Item>)
    ensures |items| == |pushes|
    ensures forall i :: 0 <= i < |pushes| ==> items[i].push == pushes[i] && Sane(items[i].task)
  {
    if reply.Results? && |reply.replies| == |pushes|
    then seq(|pushes|, i requires 0 <= i < |pushes| => ItemFor(pushes[i], reply.replies[i]))
    else seq(|pushes|, i requires 0 <= i < |pushes| => Item(pushes[i], FIRST))
  }

  datatype Walk = Walk(ledger: Ledger, actions: seq<Action>, left: seq<Answer>)

  /** The items one after the other. A not_found of the batch drops the route first. */
  function WalkItems(l: Ledger, items: seq<Item>, fromBatch: bool, answers: seq<Answer>): Walk
    requires forall it :: it in items ==> Sane(it.task)
  {
    if items == [] then Walk(l, [], answers)
    else
      var k := |items| - 1;
      var before := WalkItems(l, items[..k], fromBatch, answers);
      var r := RunTask(items[k].push, items[k].task, before.left);
      Walk(Record(before.ledger, items[k].push, r.fate),
           before.actions
           + (if fromBatch && items[k].task == FIRST then [Invalidate(items[k].push.toUid)] else [])
           + r.actions,
           r.left)
  }

  function DeliverBatch(l: Ledger, addr: Verdict, pushes: seq<Push>, reply: BatchReply, answers: seq<Answer>): Walk {
    var w := WalkItems(l, Sorted(pushes, reply), reply.Results? && |reply.replies| == |pushes|, answers);
    w.(actions := [BatchCall(addr, pushes)] + w.actions)
  }

  // ---------------------------------------------------------------- conservation

  function Total(l: Ledger): multiset<Push> {
    multiset(l.delivered) + multiset(l.offline) + multiset(l.dropped)
  }

  lemma RecordAdds(l: Ledger, p: Push, fate: Fate)
    ensures Total(Record(l, p, fate)) == Total(l) + multiset{p}
  {
  }

  function PushesOf(items: seq<Item>): multiset<Push> {
    if items == [] then multiset{} else PushesOf(items[..|items| - 1]) + multiset{items[|items| - 1].push}
  }

  lemma {:induction false} WalkConserves(l: Ledger, items: seq<Item>, fromBatch: bool, answers: seq<Answer>)
    requires forall it :: it in items ==> Sane(it.task)
    ensures Total(WalkItems(l, items, fromBatch, answers).ledger) == Total(l) + PushesOf(items)
  {
    if items != [] {
      var k := |items| - 1;
      WalkConserves(l, items[..k], fromBatch, answers);
      var before := WalkItems(l, items[..k], fromBatch, answers);
      RecordAdds(before.ledger, items[k].push, RunTask(items[k].push, items[k].task, before.left).fate);
    }
  }

  lemma {:induction false} PushesOfMeans(items: seq<Item>, pushes: seq<Push>)
    requires |items| == |pushes| && forall i :: 0 <= i < |items| ==> items[i].push == pushes[i]
    ensures PushesOf(items) == multiset(pushes)
  {
    if items != [] {
      var k := |items| - 1;
      PushesOfMeans(items[..k], pushes[..k]);
      assert pushes == pushes[..k] + [pushes[k]];
    }
  }

  /** Whatever the batch call and the retries answer, every push of the list ends up once in exactly
      one of the three lists. */
  lemma BatchConserves(l: Ledger, addr: Verdict, pushes: seq<Push>, reply: BatchReply, answers: seq<Answer>)
    ensures Total(DeliverBatch(l, addr, pushes, reply, answers).ledger) == Total(l) + multiset(pushes)
  {
    var items := Sorted(pushes, reply);
    WalkConserves(l, items, reply.Results? && |reply.replies| == |pushes|, answers);
    PushesOfMeans(items, pushes);
  }
}
