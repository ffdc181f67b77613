// A batch of the deliver worker with one goroutine per server, in any interleaving, against servers
// whose connections come and go and whose answers may get lost.
module DeliveryRuns {
  import opened Wrappers
  import opened Chat
  import opened Tables
  import opened PersistInvariants
  import opened Routing
  import opened Delivery
  import Relay

  /** A goroutine: before its batch call, or working through the answers. `used` counts the unary
      calls made for the first item, `batches` the batch calls made for all of them. */
  datatype Job =
    | Calling(addr: Verdict, pushes: seq<Push>, batches: nat)
    | Walking(items: seq<Item>, used: nat, batches: nat)

  /** `parsed` are the pushes not yet looked up, `nodes` the send queues of the servers that run,
      `sent` every push that has ever been put into a queue. */
  datatype Crew = Crew(
    parsed: seq<Push>,
    jobs: seq<Job>,
    ledger: Ledger,
    nodes: map<Verdict, Relay.Queues>,
    sent: set<Push>,
    acks: seq<Ack>,
    notices: seq<Push>)

  datatype Move =
    | Classify(verdict: Option<Verdict>)
    | BatchRpc(job: nat, contexts: seq<Relay.Context>, lost: Option<nat>)  // lost after so many frames
    | Work(job: nat, answer: Answer, context: Relay.Context)
    | Surroundings(nodes: map<Verdict, Relay.Queues>)
    | Flush(ackFails: bool, notifyFails: bool)

  // ---------------------------------------------------------------- servers

  function ReplyOf(r: Relay.Result): Reply {
    match r
    case Delivered => Accepted
    case NotFound => Reply.NotFound
    case MarshalError => Refused
    case SendFull => Refused
    case Canceled => Refused
  }

  function Frames(pushes: seq<Push>): (fs: seq<Relay.Frame>)
    ensures |fs| == |pushes|
    ensures forall i :: 0 <= i < |pushes| ==> fs[i] == Relay.MsgFrame(pushes[i])
  {
    seq(|pushes|, i requires 0 <= i < |pushes| => Relay.MsgFrame(pushes[i]))
  }

  function Replies(results: seq<Relay.Result>): (rs: seq<Reply>)
    ensures |rs| == |results|
    ensures forall i :: 0 <= i < |results| ==> rs[i] == ReplyOf(results[i])
  {
    seq(|results|, i requires 0 <= i < |results| => ReplyOf(results[i]))
  }

  /** The pushes that a request has put into queues. */
  function Queued(pushes: seq<Push>, results: seq<Relay.Result>): set<Push>
    requires |results| == |pushes|
  {
    set i | 0 <= i < |pushes| && results[i] == Relay.Delivered :: pushes[i]
  }

  // ---------------------------------------------------------------- moves

  predicate SamePlace(j: Job, addr: Verdict) {
    j.Calling? && j.addr == addr
  }

  /** Append to the group of the address, or open one. */
  function AddTo(jobs: seq<Job>, addr: Verdict, p: Push): seq<Job> {
    if jobs == [] then [Calling(addr, [p], 0)]
    else
      var k := |jobs| - 1;
      if SamePlace(jobs[k], addr) then jobs[..k] + [Calling(addr, jobs[k].pushes + [p], jobs[k].batches)]
      else AddTo(jobs[..k], addr, p) + [jobs[k]]
  }

  function Ask(c: Crew, p: Push, addr: Verdict, context: Relay.Context): Relay.Result {
    if addr in c.nodes then Relay.Answer(c.nodes[addr], p.toUid, context) else Relay.NotFound
  }

  function AfterCall(c: Crew, p: Push, addr: Verdict, context: Relay.Context): Crew {
    if addr in c.nodes then
      c.(nodes := c.nodes[addr := Relay.Enqueue(c.nodes[addr], Relay.MsgFrame(p), context)],
         sent := c.sent + if Ask(c, p, addr, context) == Relay.Delivered then {p} else {})
    else c
  }

  /** A server executes the request, or a part of it before the connection breaks. */
  function AfterBatch(c: Crew, addr: Verdict, pushes: seq<Push>, contexts: seq<Relay.Context>): Crew
    requires |contexts| == |pushes|
  {
    if addr in c.nodes then
      var b := Relay.EnqueueAll(c.nodes[addr], Frames(pushes), contexts);
      c.(nodes := c.nodes[addr := b.queues], sent := c.sent + Queued(pushes, b.results))
    else c
  }

  predicate Finished(j: Job) {
    j.Walking? && j.items == []
  }

  predicate Enabled(c: Crew, move: Move) {
    match move
    case Classify(_) => c.parsed != []
    case BatchRpc(j, contexts, lost) =>
      && c.parsed == [] && j < |c.jobs| && c.jobs[j].Calling? && |contexts| == |c.jobs[j].pushes|
      && (lost.Some? ==> lost.value <= |contexts|)
      && (c.jobs[j].addr !in c.nodes ==> lost.Some?)
    case Work(j, answer, context) =>
      && c.parsed == [] && j < |c.jobs| && c.jobs[j].Walking? && c.jobs[j].items != []
      && var t := c.jobs[j].items[0].task;
         (t.Task? && t.stage.Call? && answer.reply != RpcError ==>
            && t.stage.addr in c.nodes
            && answer.reply == ReplyOf(Ask(c, c.jobs[j].items[0].push, t.stage.addr, context)))
    case Surroundings(_) => true
    case Flush(_, _) => c.parsed == [] && forall j :: 0 <= j < |c.jobs| ==> Finished(c.jobs[j])
  }

  /** The batch goroutine drops routes for not_found; the cache itself is the business of Routing. */
  function Next(c: Crew, move: Move): Crew
    requires Enabled(c, move)
  {
    match move
    case Classify(verdict) =>
      var p := c.parsed[0];
      var d := c.(parsed := c.parsed[1..]);
      (match verdict
       case None => d.(ledger := Record(c.ledger, p, Dropped))
       case Some(addr) =>
         if addr == "" then d.(ledger := Record(c.ledger, p, Offline))
         else d.(jobs := AddTo(c.jobs, addr, p)))
    case BatchRpc(j, contexts, lost) =>
      var addr, pushes := c.jobs[j].addr, c.jobs[j].pushes;
      (match lost
       case Some(n) =>
         var d := AfterBatch(c, addr, pushes[..n], contexts[..n]);
         d.(jobs := c.jobs[j := Walking(Sorted(pushes, BatchError), 0, c.jobs[j].batches + 1)])
       case None =>
         var results := Relay.EnqueueAll(c.nodes[addr], Frames(pushes), contexts).results;
         var d := AfterBatch(c, addr, pushes, contexts);
         d.(jobs := c.jobs[j := Walking(Sorted(pushes, Results(Replies(results))), 0, c.jobs[j].batches + 1)]))
    case Work(j, answer, context) =>
      var Walking(items, used, batches) := c.jobs[j];
      (match items[0].task
       case Ended(fate) =>
         c.(jobs := c.jobs[j := Walking(items[1..], 0, batches)], ledger := Record(c.ledger, items[0].push, fate))
       case Task(_, _, stage) =>
         var p, next := items[0].push, StepTask(items[0].task, answer);
         var d := if stage.Call? then AfterCall(c, p, stage.addr, context) else c;
         d.(jobs := c.jobs[j := Walking([Item(p, next)] + items[1..], used + (if stage.Call? then 1 else 0), batches)]))
    case Surroundings(nodes) => c.(nodes := nodes)
    case Flush(ackFails, notifyFails) =>
      var l := c.ledger;
      var emptied := c.(ledger := l.(delivered := [], offline := []));
      if l.delivered != [] && ackFails then emptied
      else
        var acked := emptied.(acks := c.acks + AcksFor(l.delivered));
        if l.offline != [] && notifyFails then acked else acked.(notices := c.notices + l.offline)
  }

  function AcksFor(pushes: seq<Push>): (acks: seq<Ack>)
    ensures |acks| == |pushes|
    ensures forall i :: 0 <= i < |pushes| ==> acks[i] == AckFromPush(pushes[i])
  {
    seq(|pushes|, i requires 0 <= i < |pushes| => AckFromPush(pushes[i]))
  }

  // ---------------------------------------------------------------- conservation

  function JobPushes(j: Job): multiset<Push> {
    match j
    case Calling(_, pushes, _) => multiset(pushes)
    case Walking(items, _, _) => PushesOf(items)
  }

  function AllJobPushes(jobs: seq<Job>): multiset<Push> {
    if jobs == [] then multiset{} else AllJobPushes(jobs[..|jobs| - 1]) + JobPushes(jobs[|jobs| - 1])
  }

  /** The pushes that have not met their fate yet. */
  function Open(c: Crew): multiset<Push> {
    multiset(c.parsed) + AllJobPushes(c.jobs)
  }

  lemma {:induction false} JobReplaced(jobs: seq<Job>, j: nat, x: Job)
    requires j < |jobs|
    ensures AllJobPushes(jobs[j := x]) + JobPushes(jobs[j]) == AllJobPushes(jobs) + JobPushes(x)
  {
    hide JobPushes;
    var k, after := |jobs| - 1, jobs[j := x];
    if j < k {
      JobReplaced(jobs[..k], j, x);
      assert after[..k] == jobs[..k][j := x];
      Exchange(AllJobPushes(after[..k]), AllJobPushes(jobs[..k]), JobPushes(jobs[j]), JobPushes(x), JobPushes(jobs[k]));
    } else {
      assert after[..k] == jobs[..k];
    }
  }

  lemma Exchange(after: multiset<Push>, before: multiset<Push>, out: multiset<Push>, into: multiset<Push>,
                 rest: multiset<Push>)
    requires after + out == before + into
    ensures (after + rest) + out == (before + rest) + into
  {
    assert (after + rest) + out == (after + out) + rest;
    assert (before + rest) + into == (before + into) + rest;
  }

  lemma Balance(j': multiset<Push>, j: multiset<Push>, w': multiset<Push>, w: multiset<Push>,
                l': multiset<Push>, l: multiset<Push>)
    requires j' + w == j + w' && w' + l' == w + l
    ensures j' + l' == j + l
  {
    assert (j' + l') + w == (j' + w) + l' == j + (w' + l') == (j + l) + w;
    Cancel(j' + l', j + l, w);
  }

  lemma Cancel(a: multiset<Push>, b: multiset<Push>, c: multiset<Push>)
    requires a + c == b + c
    ensures a == b
  {
    forall p
      ensures a[p] == b[p]
    {
      assert (a + c)[p] == (b + c)[p];
    }
  }

  lemma Sums(a: multiset<Push>, b: multiset<Push>, c: multiset<Push>)
    ensures (a + b) + c == a + (b + c)
  {
  }

  lemma {:induction false} AddToAdds(jobs: seq<Job>, addr: Verdict, p: Push)
    ensures AllJobPushes(AddTo(jobs, addr, p)) == AllJobPushes(jobs) + multiset{p}
  {
    if jobs == [] {
      assert AddTo(jobs, addr, p)[..0] == [];
    } else {
      var k, after := |jobs| - 1, AddTo(jobs, addr, p);
      if SamePlace(jobs[k], addr) {
        assert after[..k] == jobs[..k];
      } else {
        AddToAdds(jobs[..k], addr, p);
        assert after[..|after| - 1] == AddTo(jobs[..k], addr, p);
      }
    }
  }

  lemma {:induction false} FirstItem(items: seq<Item>)
    requires items != []
    ensures PushesOf(items) == multiset{items[0].push} + PushesOf(items[1..])
  {
    if |items| > 1 {
      var k := |items| - 1;
      FirstItem(items[..k]);
      assert items[1..][..k - 1] == items[..k][1..];
    }
  }

  lemma SortedPushes(pushes: seq<Push>, reply: BatchReply)
    ensures PushesOf(Sorted(pushes, reply)) == multiset(pushes)
  {
    PushesOfMeans(Sorted(pushes, reply), pushes);
  }

  lemma Shuffle(a: multiset<Push>, j: multiset<Push>, t: multiset<Push>, p: multiset<Push>)
    ensures (a + j) + (t + p) == ((p + a) + j) + t
    ensures (a + (j + p)) + t == ((p + a) + j) + t
  {
  }

  lemma HeadAndTail(s: seq<Push>)
    requires s != []
    ensures multiset(s) == multiset{s[0]} + multiset(s[1..])
  {
    assert s == [s[0]] + s[1..];
  }

  lemma ClassifyConserves(c: Crew, verdict: Option<Verdict>)
    requires c.parsed != []
    ensures var d := Next(c, Classify(verdict)); Open(d) + Total(d.ledger) == Open(c) + Total(c.ledger)
  {
    hide AllJobPushes, Total, Record;
    var p := c.parsed[0];
    HeadAndTail(c.parsed);
    Shuffle(multiset(c.parsed[1..]), AllJobPushes(c.jobs), Total(c.ledger), multiset{p});
    match verdict
    case None => RecordAdds(c.ledger, p, Dropped);
    case Some(addr) =>
      if addr == "" {
        RecordAdds(c.ledger, p, Offline);
      } else {
        AddToAdds(c.jobs, addr, p);
      }
  }

  lemma OneJobChanges(c: Crew, move: Move)
    requires Enabled(c, move) && (move.BatchRpc? || move.Work?)
    ensures move.job < |c.jobs| == |Next(c, move).jobs|
    ensures Next(c, move).jobs == c.jobs[move.job := Next(c, move).jobs[move.job]]
  {
    hide Sorted, Relay.EnqueueAll, Relay.Enqueue, StepTask;
  }

  lemma MoveConserves(c: Crew, move: Move)
    requires Enabled(c, move) && !move.Flush?
    ensures Open(Next(c, move)) + Total(Next(c, move).ledger) == Open(c) + Total(c.ledger)
  {
    match move
    case Classify(verdict) =>
      hide Next, Total, Open;
      ClassifyConserves(c, verdict);
    case BatchRpc(j, _, _) =>
      OneJobChanges(c, move);
      hide Next, Total, Open, AllJobPushes, JobPushes;
      JobReplaced(c.jobs, j, Next(c, move).jobs[j]);
      RpcKeepsPushes(c, move);
      WorkBalances(c, Next(c, move), j);
    case Work(j, _, _) =>
      OneJobChanges(c, move);
      hide Next, Total, Open, AllJobPushes, JobPushes;
      JobReplaced(c.jobs, j, Next(c, move).jobs[j]);
      WorkKeepsPushes(c, move);
      WorkBalances(c, Next(c, move), j);
    case Surroundings(_) =>
  }

  lemma WorkBalances(c: Crew, d: Crew, j: nat)
    requires j < |c.jobs| == |d.jobs| && d.parsed == c.parsed
    requires AllJobPushes(d.jobs) + JobPushes(c.jobs[j]) == AllJobPushes(c.jobs) + JobPushes(d.jobs[j])
    requires JobPushes(d.jobs[j]) + Total(d.ledger) == JobPushes(c.jobs[j]) + Total(c.ledger)
    ensures Open(d) + Total(d.ledger) == Open(c) + Total(c.ledger)
  {
    hide AllJobPushes, JobPushes, Total;
    Balance(AllJobPushes(d.jobs), AllJobPushes(c.jobs), JobPushes(d.jobs[j]), JobPushes(c.jobs[j]),
            Total(d.ledger), Total(c.ledger));
    Sums(multiset(c.parsed), AllJobPushes(c.jobs), Total(c.ledger));
    Sums(multiset(d.parsed), AllJobPushes(d.jobs), Total(d.ledger));
  }

  lemma RpcKeepsPushes(c: Crew, move: Move)
    requires Enabled(c, move) && move.BatchRpc?
    ensures JobPushes(Next(c, move).jobs[move.job]) == JobPushes(c.jobs[move.job])
    ensures Next(c, move).ledger == c.ledger && Next(c, move).parsed == c.parsed
  {
    hide PushesOf, Sorted, Relay.EnqueueAll;
    var pushes := c.jobs[move.job].pushes;
    SortedPushes(pushes, BatchError);
    if move.lost.None? {
      var b := Relay.EnqueueAll(c.nodes[c.jobs[move.job].addr], Frames(pushes), move.contexts);
      SortedPushes(pushes, Results(Replies(b.results)));
    }
  }

  lemma WorkKeepsPushes(c: Crew, move: Move)
    requires Enabled(c, move) && move.Work?
    ensures var items, d := c.jobs[move.job].items, Next(c, move);
      && d.parsed == c.parsed
      && JobPushes(d.jobs[move.job]) + Total(d.ledger) == JobPushes(c.jobs[move.job]) + Total(c.ledger)
  {
    hide PushesOf, StepTask, Relay.Enqueue;
    var items := c.jobs[move.job].items;
    FirstItem(items);
    if items[0].task.Task? {
      var next := Item(items[0].push, StepTask(items[0].task, move.answer));
      FirstItem([next] + items[1..]);
      assert ([next] + items[1..])[1..] == items[1..];
    } else {
      RecordAdds(c.ledger, items[0].push, items[0].task.fate);
    }
  }

  // ---------------------------------------------------------------- what holds all the time

  /** Tasks are sane and within their six calls, and a push counted as delivered has been put into
      some connection's queue. */
  predicate JobOk(j: Job, sent: set<Push>) {
    if j.Calling? then j.batches == 0
    else
      && j.batches <= 1
      && (forall it :: it in j.items ==> Sane(it.task) && (it.task == Ended(Delivered) ==> it.push in sent))
      && (if j.items == [] then j.used == 0 else j.used + CallsLeft(j.items[0].task) <= 6)
      && (forall it :: it in j.items ==> CallsLeft(it.task) <= 6)
  }

  predicate CrewInv(c: Crew) {
    && (forall j :: 0 <= j < |c.jobs| ==> JobOk(c.jobs[j], c.sent))
    && (forall p :: p in c.ledger.delivered ==> p in c.sent)
    && (forall a :: a in c.acks ==> exists p :: p in c.sent && a == AckFromPush(p))
  }

  lemma JobStaysOk(j: Job, sent: set<Push>, more: set<Push>)
    requires JobOk(j, sent) && sent <= more
    ensures JobOk(j, more)
  {
  }

  lemma NoBatchYet(j: Job, sent: set<Push>)
    requires JobOk(j, sent) && j.Calling?
    ensures j.batches == 0
  {
  }

  lemma CrewWith(c: Crew, d: Crew, j: nat, x: Job)
    requires CrewInv(c) && j < |c.jobs| && d.jobs == c.jobs[j := x] && JobOk(x, d.sent)
    requires c.sent <= d.sent && d.acks == c.acks
    requires forall p :: p in d.ledger.delivered ==> p in d.sent
    ensures CrewInv(d)
  {
    hide JobOk;
    forall i | 0 <= i < |d.jobs|
      ensures JobOk(d.jobs[i], d.sent)
    {
      if i != j {
        JobStaysOk(c.jobs[i], c.sent, d.sent);
      }
    }
  }

  lemma {:induction false} AddToOk(jobs: seq<Job>, addr: Verdict, p: Push, sent: set<Push>)
    requires forall j :: 0 <= j < |jobs| ==> JobOk(jobs[j], sent)
    ensures forall j :: 0 <= j < |AddTo(jobs, addr, p)| ==> JobOk(AddTo(jobs, addr, p)[j], sent)
  {
    if jobs != [] {
      AddToOk(jobs[..|jobs| - 1], addr, p, sent);
    }
  }

  lemma {:induction false} BatchJobOk(c: Crew, j: nat, contexts: seq<Relay.Context>)
    requires j < |c.jobs| && c.jobs[j].Calling? && |contexts| == |c.jobs[j].pushes| && c.jobs[j].addr in c.nodes
    ensures var addr, pushes := c.jobs[j].addr, c.jobs[j].pushes;
      var results := Relay.EnqueueAll(c.nodes[addr], Frames(pushes), contexts).results;
      JobOk(Walking(Sorted(pushes, Results(Replies(results))), 0, 1), AfterBatch(c, addr, pushes, contexts).sent)
  {
    hide Relay.EnqueueAll;
    var addr, pushes := c.jobs[j].addr, c.jobs[j].pushes;
    var results := Relay.EnqueueAll(c.nodes[addr], Frames(pushes), contexts).results;
    var items := Sorted(pushes, Results(Replies(results)));
    forall it | it in items
      ensures Sane(it.task) && CallsLeft(it.task) <= 6
      ensures it.task == Ended(Delivered) ==> it.push in Queued(pushes, results)
    {
      var i :| 0 <= i < |items| && items[i] == it;
      assert it == ItemFor(pushes[i], ReplyOf(results[i]));
    }
  }

  lemma SinglyOk(pushes: seq<Push>, sent: set<Push>)
    ensures JobOk(Walking(Sorted(pushes, BatchError), 0, 1), sent)
  {
  }

  lemma WorkOk(c: Crew, move: Move)
    requires CrewInv(c) && Enabled(c, move) && move.Work?
    ensures var d := Next(c, move);
      && JobOk(d.jobs[move.job], d.sent) && c.sent <= d.sent && d.acks == c.acks
      && d.jobs == c.jobs[move.job := d.jobs[move.job]]
      && (forall p :: p in d.ledger.delivered ==> p in d.sent)
  {
    hide Relay.Enqueue, Relay.Answer;
    var Walking(items, used, _) := c.jobs[move.job];
    var d := Next(c, move);
    assert JobOk(c.jobs[move.job], c.sent);
    assert items[0] in items;
    forall it | it in items[1..]
      ensures it in items
    {
    }
    match items[0].task {
      case Ended(fate) =>
        if |items| > 1 {
          assert items[1] in items;
        }
      case Task(_, _, _) =>
        StepTaskShrinks(items[0].task, move.answer);
        StepCalls(items[0].push, items[0].task, move.answer);
        StepDelivers(c, move);
    }
  }

  lemma StepDelivers(c: Crew, move: Move)
    requires Enabled(c, move) && move.Work? && c.jobs[move.job].items[0].task.Task?
    ensures var it := c.jobs[move.job].items[0];
      StepTask(it.task, move.answer) == Ended(Delivered) ==> it.push in Next(c, move).sent
  {
    hide Relay.Enqueue, Relay.Answer;
  }

  lemma MoveKeepsCrewInv(c: Crew, move: Move)
    requires CrewInv(c) && Enabled(c, move)
    ensures CrewInv(Next(c, move))
  {
    hide JobOk, Relay.EnqueueAll, Relay.Enqueue, Relay.Answer, StepTask, Sorted;
    match move
    case Classify(verdict) =>
      if verdict.Some? {
        AddToOk(c.jobs, verdict.value, c.parsed[0], c.sent);
      }
    case BatchRpc(j, contexts, lost) =>
      var pushes := c.jobs[j].pushes;
      NoBatchYet(c.jobs[j], c.sent);
      match lost {
        case Some(n) =>
          SinglyOk(pushes, Next(c, move).sent);
          CrewWith(c, Next(c, move), j, Walking(Sorted(pushes, BatchError), 0, 1));
        case None =>
          BatchJobOk(c, j, contexts);
          CrewWith(c, Next(c, move), j, Next(c, move).jobs[j]);
      }
    case Work(j, _, _) =>
      WorkOk(c, move);
      CrewWith(c, Next(c, move), j, Next(c, move).jobs[j]);
    case Surroundings(_) =>
    case Flush(_, _) => FlushKeepsCrewInv(c, move);
  }

  lemma FlushKeepsCrewInv(c: Crew, move: Move)
    requires CrewInv(c) && Enabled(c, move) && move.Flush?
    ensures CrewInv(Next(c, move))
    ensures var l := Next(c, move).ledger; l.delivered == [] && l.offline == [] && l.dropped == c.ledger.dropped
  {
    hide JobOk;
    var d, acks := Next(c, move), AcksFor(c.ledger.delivered);
    forall a | a in d.acks
      ensures exists p :: p in d.sent && a == AckFromPush(p)
    {
      if a !in c.acks {
        var i :| 0 <= i < |acks| && acks[i] == a;
        assert c.ledger.delivered[i] in c.ledger.delivered;
      }
    }
  }

  // ---------------------------------------------------------------- every interleaving

  function RunCrew(c: Crew, moves: seq<Move>): Crew
    requires Possible(c, moves)
    decreases |moves|, 1
  {
    if moves == [] then c else Next(RunCrew(c, moves[..|moves| - 1]), moves[|moves| - 1])
  }

  predicate Possible(c: Crew, moves: seq<Move>)
    decreases |moves|, 0
  {
    moves == [] ||
    (Possible(c, moves[..|moves| - 1]) && Enabled(RunCrew(c, moves[..|moves| - 1]), moves[|moves| - 1]))
  }

  function StartOf(batch: seq<Push>, nodes: map<Verdict, Relay.Queues>): Crew {
    Crew(batch, [], NOTHING, nodes, {}, [], [])
  }

  lemma {:induction false} RunKeepsCrewInv(batch: seq<Push>, nodes: map<Verdict, Relay.Queues>, moves: seq<Move>)
    requires Possible(StartOf(batch, nodes), moves)
    ensures CrewInv(RunCrew(StartOf(batch, nodes), moves))
    ensures (forall m :: m in moves ==> !m.Flush?) ==>
      var c := RunCrew(StartOf(batch, nodes), moves); Open(c) + Total(c.ledger) == multiset(batch)
  {
    hide CrewInv, Enabled, Next;
    var c := StartOf(batch, nodes);
    if moves == [] {
      assert CrewInv(c) by { FreshCrew(batch, nodes); }
    } else {
      var k := |moves| - 1;
      RunKeepsCrewInv(batch, nodes, moves[..k]);
      MoveKeepsCrewInv(RunCrew(c, moves[..k]), moves[k]);
      if !moves[k].Flush? {
        MoveConserves(RunCrew(c, moves[..k]), moves[k]);
      }
    }
  }

  lemma FreshCrew(batch: seq<Push>, nodes: map<Verdict, Relay.Queues>)
    ensures CrewInv(StartOf(batch, nodes))
  {
  }

  lemma {:induction false} NoJobsNoPushes(jobs: seq<Job>)
    requires forall j :: 0 <= j < |jobs| ==> Finished(jobs[j])
    ensures AllJobPushes(jobs) == multiset{}
  {
    if jobs != [] {
      NoJobsNoPushes(jobs[..|jobs| - 1]);
    }
  }

  /** Conservation: in every interleaving, whatever the servers answer, lose or cut short, when the
      goroutines are done every parsed push is in exactly one of the three lists, once. And nobody
      has made more than six unary calls for a push after at most one batch call. */
  lemma {:induction false} EveryPushMeetsOneFate(batch: seq<Push>, nodes: map<Verdict, Relay.Queues>, moves: seq<Move>,
                              ackFails: bool, notifyFails: bool)
    requires Possible(StartOf(batch, nodes), moves) && forall m :: m in moves ==> !m.Flush?
    ensures var c := RunCrew(StartOf(batch, nodes), moves);
      && (Enabled(c, Flush(ackFails, notifyFails)) ==> Total(c.ledger) == multiset(batch))
      && (forall j :: 0 <= j < |c.jobs| ==> c.jobs[j].batches <= 1 && (c.jobs[j].Walking? ==> c.jobs[j].used <= 6))
  {
    hide Possible, RunCrew;
    RunKeepsCrewInv(batch, nodes, moves);
    var c := RunCrew(StartOf(batch, nodes), moves);
    if Enabled(c, Flush(ackFails, notifyFails)) {
      NoJobsNoPushes(c.jobs);
    }
    forall j | 0 <= j < |c.jobs|
      ensures c.jobs[j].batches <= 1 && (c.jobs[j].Walking? ==> c.jobs[j].used <= 6)
    {
      assert JobOk(c.jobs[j], c.sent);
    }
  }

  /** No acknowledgement without its frame in a queue: it is that of a push of the batch that has
      lain in the queue of its receiver on some server. */
  lemma {:induction false} AckHasPush(batch: seq<Push>, nodes: map<Verdict, Relay.Queues>, moves: seq<Move>, a: Ack)
    requires Possible(StartOf(batch, nodes), moves) && a in RunCrew(StartOf(batch, nodes), moves).acks
    ensures exists p :: p in batch && a == AckFromPush(p) && EverQueued(StartOf(batch, nodes), moves, p)
  {
    hide Possible, RunCrew, EverQueued;
    RunKeepsCrewInv(batch, nodes, moves);
    SentIsParsed(batch, nodes, moves);
    var p :| p in RunCrew(StartOf(batch, nodes), moves).sent && a == AckFromPush(p);
    SentWasQueued(batch, nodes, moves, p);
    assert p in batch;
  }

  /** What an acknowledgement says is in the tables. */
  predicate AckOfRow(db: Db, a: Ack) {
    && a.id in db.messages
    && var row := db.messages[a.id]; row.convId == a.convId && row.seqNo == a.seqNo && row.fromUid == a.fromUid
  }

  /** And its row is in the tables: when the pushes of the batch carry stored rows, each chat.ack carries
      the id, the conversation, the number and the sender of a stored row, and its push has lain
      in the queue of its receiver. */
  lemma {:induction false} AcksAreEarned(db: Db, batch: seq<Push>, nodes: map<Verdict, Relay.Queues>,
                                         moves: seq<Move>, a: Ack)
    requires Possible(StartOf(batch, nodes), moves) && (forall p :: p in batch ==> PushOfRow(db, p))
    requires a in RunCrew(StartOf(batch, nodes), moves).acks
    ensures exists p :: a == AckFromPush(p) && EverQueued(StartOf(batch, nodes), moves, p)
    ensures AckOfRow(db, a)
  {
    hide Possible, RunCrew, EverQueued;
    AckHasPush(batch, nodes, moves, a);
  }

  // ---------------------------------------------------------------- where frames come from

  predicate FromBatch(c: Crew, batch: seq<Push>) {
    && (forall p :: p in c.parsed ==> p in batch)
    && (forall p :: p in c.sent ==> p in batch)
    && (forall j :: 0 <= j < |c.jobs| ==> JobFrom(c.jobs[j], batch))
  }

  predicate JobFrom(j: Job, batch: seq<Push>) {
    match j
    case Calling(_, pushes, _) => forall p :: p in pushes ==> p in batch
    case Walking(items, _, _) => forall it :: it in items ==> it.push in batch
  }

  lemma {:induction false} AddToFrom(jobs: seq<Job>, addr: Verdict, p: Push, batch: seq<Push>)
    requires p in batch && forall j :: 0 <= j < |jobs| ==> JobFrom(jobs[j], batch)
    ensures forall j :: 0 <= j < |AddTo(jobs, addr, p)| ==> JobFrom(AddTo(jobs, addr, p)[j], batch)
  {
    if jobs != [] {
      AddToFrom(jobs[..|jobs| - 1], addr, p, batch);
    }
  }

  lemma SortedFrom(pushes: seq<Push>, reply: BatchReply, batch: seq<Push>, used: nat, batches: nat)
    requires forall p :: p in pushes ==> p in batch
    ensures JobFrom(Walking(Sorted(pushes, reply), used, batches), batch)
  {
  }

  lemma WorkFrom(c: Crew, move: Move, batch: seq<Push>)
    requires Enabled(c, move) && move.Work? && JobFrom(c.jobs[move.job], batch)
    ensures JobFrom(Next(c, move).jobs[move.job], batch)
    ensures forall p :: p in Next(c, move).sent ==> p in c.sent || p in batch
  {
    hide StepTask, Relay.Enqueue, Relay.Answer;
    var items := c.jobs[move.job].items;
    assert items[0] in items;
  }

  lemma MoveFrom(c: Crew, move: Move, batch: seq<Push>)
    requires Enabled(c, move) && FromBatch(c, batch)
    ensures FromBatch(Next(c, move), batch)
  {
    hide JobFrom, StepTask, Relay.Enqueue, Relay.Answer, Relay.EnqueueAll, Sorted;
    match move
    case Classify(verdict) =>
      if verdict.Some? {
        AddToFrom(c.jobs, verdict.value, c.parsed[0], batch);
      }
    case BatchRpc(j, contexts, lost) => BatchFrom(c, move, batch);
    case Work(_, _, _) => WorkFrom(c, move, batch);
    case _ =>
  }

  lemma BatchFrom(c: Crew, move: Move, batch: seq<Push>)
    requires Enabled(c, move) && move.BatchRpc? && FromBatch(c, batch)
    ensures FromBatch(Next(c, move), batch)
  {
    var pushes := c.jobs[move.job].pushes;
    assert JobFrom(c.jobs[move.job], batch);
    SortedFrom(pushes, BatchError, batch, 0, c.jobs[move.job].batches + 1);
    if move.lost.None? {
      var b := Relay.EnqueueAll(c.nodes[c.jobs[move.job].addr], Frames(pushes), move.contexts);
      SortedFrom(pushes, Results(Replies(b.results)), batch, 0, c.jobs[move.job].batches + 1);
    }
    hide JobFrom, Relay.EnqueueAll, Sorted;
  }

  lemma {:induction false} SentIsParsed(batch: seq<Push>, nodes: map<Verdict, Relay.Queues>, moves: seq<Move>)
    requires Possible(StartOf(batch, nodes), moves)
    ensures FromBatch(RunCrew(StartOf(batch, nodes), moves), batch)
  {
    hide Enabled, Next, JobFrom;
    if moves != [] {
      var k := |moves| - 1;
      SentIsParsed(batch, nodes, moves[..k]);
      MoveFrom(RunCrew(StartOf(batch, nodes), moves[..k]), moves[k], batch);
    }
  }

  // ---------------------------------------------------------------- sent means queued

  /** The push lies in the queue of its receiver on some server. */
  predicate QueuedIn(c: Crew, p: Push) {
    exists addr :: addr in c.nodes && QueuedAt(c.nodes[addr], p)
  }

  predicate QueuedAt(queues: Relay.Queues, p: Push) {
    p.toUid in queues && Relay.MsgFrame(p) in queues[p.toUid]
  }

  lemma EnqueueQueues(queues: Relay.Queues, p: Push, ctx: Relay.Context, q: Push)
    ensures QueuedAt(queues, q) ==> QueuedAt(Relay.Enqueue(queues, Relay.MsgFrame(p), ctx), q)
    ensures Relay.Answer(queues, p.toUid, ctx) == Relay.Delivered ==>
      QueuedAt(Relay.Enqueue(queues, Relay.MsgFrame(p), ctx), p)
  {
  }

  lemma {:induction false} DeliveredIsQueued(queues: Relay.Queues, pushes: seq<Push>, ctxs: seq<Relay.Context>, i: nat)
    requires |ctxs| == |pushes| && i < |pushes|
    requires Relay.EnqueueAll(queues, Frames(pushes), ctxs).results[i] == Relay.Delivered
    ensures QueuedAt(Relay.EnqueueAll(queues, Frames(pushes), ctxs).queues, pushes[i])
  {
    hide Relay.Enqueue, Relay.Answer, QueuedAt;
    var k := |pushes| - 1;
    assert Frames(pushes)[..k] == Frames(pushes[..k]);
    var before := Relay.EnqueueAll(queues, Frames(pushes[..k]), ctxs[..k]);
    if i < k {
      DeliveredIsQueued(queues, pushes[..k], ctxs[..k], i);
    }
    EnqueueQueues(before.queues, pushes[k], ctxs[k], pushes[i]);
  }

  lemma BatchSentIsQueued(c: Crew, addr: Verdict, pushes: seq<Push>, contexts: seq<Relay.Context>, p: Push)
    requires |contexts| == |pushes| && p !in c.sent && p in AfterBatch(c, addr, pushes, contexts).sent
    ensures QueuedIn(AfterBatch(c, addr, pushes, contexts), p)
  {
    hide Relay.EnqueueAll, QueuedAt;
    var b := Relay.EnqueueAll(c.nodes[addr], Frames(pushes), contexts);
    var i :| 0 <= i < |pushes| && b.results[i] == Relay.Delivered && pushes[i] == p;
    DeliveredIsQueued(c.nodes[addr], pushes, contexts, i);
    assert QueuedAt(AfterBatch(c, addr, pushes, contexts).nodes[addr], p);
  }

  lemma CallSentIsQueued(c: Crew, p: Push, addr: Verdict, context: Relay.Context, q: Push)
    requires q !in c.sent && q in AfterCall(c, p, addr, context).sent
    ensures QueuedIn(AfterCall(c, p, addr, context), q)
  {
    hide Relay.Enqueue, Relay.Answer, QueuedAt;
    EnqueueQueues(c.nodes[addr], p, context, q);
    assert QueuedAt(AfterCall(c, p, addr, context).nodes[addr], q);
  }

  lemma QueuedSame(c: Crew, d: Crew, p: Push)
    requires QueuedIn(c, p) && d.nodes == c.nodes
    ensures QueuedIn(d, p)
  {
    hide QueuedAt;
  }

  lemma NewlySentIsQueued(c: Crew, move: Move, p: Push)
    requires Enabled(c, move) && p !in c.sent && p in Next(c, move).sent
    ensures QueuedIn(Next(c, move), p)
  {
    hide AfterBatch, AfterCall, QueuedIn, Sorted, StepTask, AddTo;
    var d := Next(c, move);
    match move
    case BatchRpc(j, contexts, lost) =>
      var addr, pushes, n := c.jobs[j].addr, c.jobs[j].pushes, if lost.Some? then lost.value else |contexts|;
      assert pushes[..|pushes|] == pushes && contexts[..|contexts|] == contexts;
      BatchSentIsQueued(c, addr, pushes[..n], contexts[..n], p);
      QueuedSame(AfterBatch(c, addr, pushes[..n], contexts[..n]), d, p);
    case Work(j, _, context) =>
      var it := c.jobs[j].items[0];
      if it.task.Task? && it.task.stage.Call? {
        CallSentIsQueued(c, it.push, it.task.stage.addr, context, p);
        QueuedSame(AfterCall(c, it.push, it.task.stage.addr, context), d, p);
      }
    case _ =>
  }

  predicate EverQueued(c: Crew, moves: seq<Move>, p: Push) {
    exists k :: 0 <= k <= |moves| && Possible(c, moves[..k]) && QueuedIn(RunCrew(c, moves[..k]), p)
  }

  /** Whatever counts as sent has lain in the queue of its receiver on some server at some moment of the
      run. */
  lemma {:induction false} SentWasQueued(batch: seq<Push>, nodes: map<Verdict, Relay.Queues>, moves: seq<Move>, p: Push)
    requires Possible(StartOf(batch, nodes), moves) && p in RunCrew(StartOf(batch, nodes), moves).sent
    ensures EverQueued(StartOf(batch, nodes), moves, p)
  {
    hide QueuedIn, Enabled, Next;
    var c0 := StartOf(batch, nodes);
    if moves != [] {
      var n := |moves| - 1;
      var c := RunCrew(c0, moves[..n]);
      assert moves[..|moves|] == moves;
      if p in c.sent {
        SentWasQueued(batch, nodes, moves[..n], p);
        var k :| 0 <= k <= n && Possible(c0, moves[..n][..k]) && QueuedIn(RunCrew(c0, moves[..n][..k]), p);
        assert moves[..n][..k] == moves[..k];
      } else {
        NewlySentIsQueued(c, moves[n], p);
      }
    }
  }

  // ---------------------------------------------------------------- the batch by servers

  /** The pushes of a batch whose look-up gave a verdict, in the order of the topic. */
  function With(batch: seq<Push>, verdicts: seq<Option<Verdict>>, v: Option<Verdict>): seq<Push>
    requires |verdicts| == |batch|
  {
    if batch == [] then []
    else
      var k := |batch| - 1;
      With(batch[..k], verdicts[..k], v) + if verdicts[k] == v then [batch[k]] else []
  }

  function Classifies(verdicts: seq<Option<Verdict>>): (moves: seq<Move>)
    ensures |moves| == |verdicts| && forall i :: 0 <= i < |moves| ==> moves[i] == Classify(verdicts[i])
  {
    seq(|verdicts|, i requires 0 <= i < |verdicts| => Classify(verdicts[i]))
  }

  /** One group for each address that was found, with all pushes for it in order, and none for any other;
      no two groups for one address. */
  ghost predicate Grouped(jobs: seq<Job>, batch: seq<Push>, verdicts: seq<Option<Verdict>>)
    requires |verdicts| == |batch|
  {
    && (forall j :: 0 <= j < |jobs| ==>
          jobs[j].Calling? && jobs[j].addr != ""
          && jobs[j] == Calling(jobs[j].addr, With(batch, verdicts, Some(jobs[j].addr)), 0))
    && (forall i, j :: 0 <= i < j < |jobs| ==> jobs[i].addr != jobs[j].addr)
    && (forall addr :: addr != "" && With(batch, verdicts, Some(addr)) != [] ==> HasGroup(jobs, addr))
  }

  predicate HasGroup(jobs: seq<Job>, addr: Verdict) {
    exists j :: 0 <= j < |jobs| && SamePlace(jobs[j], addr)
  }

  ghost predicate Distinct(jobs: seq<Job>) {
    && (forall j :: 0 <= j < |jobs| ==> jobs[j].Calling?)
    && (forall i, j :: 0 <= i < j < |jobs| ==> jobs[i].addr != jobs[j].addr)
  }

  /** Adding a push changes the group of its address, or opens it at the end. */
  lemma {:induction false} AddToGroups(jobs: seq<Job>, addr: Verdict, p: Push)
    requires Distinct(jobs)
    ensures var after := AddTo(jobs, addr, p);
      if HasGroup(jobs, addr) then
        && |after| == |jobs|
        && forall j :: 0 <= j < |jobs| ==>
             after[j] == if jobs[j].addr == addr then Calling(addr, jobs[j].pushes + [p], jobs[j].batches) else jobs[j]
      else
        && |after| == |jobs| + 1 && after[0] == Calling(addr, [p], 0)
        && forall j :: 0 <= j < |jobs| ==> after[j + 1] == jobs[j]
  {
    if jobs != [] {
      var k := |jobs| - 1;
      assert Distinct(jobs[..k]);
      AddToGroups(jobs[..k], addr, p);
      GroupSplit(jobs, addr);
      if SamePlace(jobs[k], addr) {
        assert forall j :: 0 <= j < k ==> jobs[j].addr != addr;
      }
    }
  }

  lemma GroupSplit(jobs: seq<Job>, addr: Verdict)
    requires jobs != []
    ensures HasGroup(jobs, addr) <==> HasGroup(jobs[..|jobs| - 1], addr) || SamePlace(jobs[|jobs| - 1], addr)
  {
    var k := |jobs| - 1;
    if HasGroup(jobs[..k], addr) {
      var j :| 0 <= j < k && SamePlace(jobs[..k][j], addr);
      assert SamePlace(jobs[j], addr);
    }
  }

  lemma {:induction false} WithSnoc(batch: seq<Push>, verdicts: seq<Option<Verdict>>, p: Push, x: Option<Verdict>,
                                    v: Option<Verdict>)
    requires |verdicts| == |batch|
    ensures With(batch + [p], verdicts + [x], v) == With(batch, verdicts, v) + if x == v then [p] else []
  {
    assert (batch + [p])[..|batch|] == batch && (verdicts + [x])[..|batch|] == verdicts;
  }

  lemma GroupedStays(jobs: seq<Job>, batch: seq<Push>, verdicts: seq<Option<Verdict>>, p: Push, x: Option<Verdict>)
    requires |verdicts| == |batch| && Grouped(jobs, batch, verdicts) && (x == None || x == Some(""))
    ensures Grouped(jobs, batch + [p], verdicts + [x])
  {
    hide With, HasGroup;
    forall addr | addr != ""
      ensures With(batch + [p], verdicts + [x], Some(addr)) == With(batch, verdicts, Some(addr))
    {
      WithSnoc(batch, verdicts, p, x, Some(addr));
    }
  }

  lemma {:induction false} GroupedGrows(jobs: seq<Job>, batch: seq<Push>, verdicts: seq<Option<Verdict>>, p: Push,
                                        addr: Verdict)
    requires |verdicts| == |batch| && Grouped(jobs, batch, verdicts) && addr != ""
    ensures Grouped(AddTo(jobs, addr, p), batch + [p], verdicts + [Some(addr)])
  {
    hide With, AddTo;
    var after := AddTo(jobs, addr, p);
    AddToGroups(jobs, addr, p);
    forall v {
      WithSnoc(batch, verdicts, p, Some(addr), v);
    }
    if !HasGroup(jobs, addr) {
      assert With(batch, verdicts, Some(addr)) == [];
      forall j | 0 <= j < |jobs|
        ensures jobs[j].addr != addr
      {
        assert !SamePlace(jobs[j], addr);
      }
      forall j | 0 <= j < |after|
        ensures after[j].Calling? && after[j].addr != ""
        ensures after[j] == Calling(after[j].addr, With(batch + [p], verdicts + [Some(addr)], Some(after[j].addr)), 0)
      {
        if j > 0 {
          assert after[j] == jobs[j - 1];
        }
      }
    }
    forall x | x != "" && With(batch + [p], verdicts + [Some(addr)], Some(x)) != []
      ensures HasGroup(after, x)
    {
      GroupsStay(jobs, after, addr, p, x);
    }
    GroupsDiffer(jobs, after, addr, p);
  }

  lemma {:induction false} GroupsStay(jobs: seq<Job>, after: seq<Job>, addr: Verdict, p: Push, x: Verdict)
    requires Distinct(jobs) && after == AddTo(jobs, addr, p) && (x == addr || HasGroup(jobs, x))
    ensures HasGroup(after, x)
  {
    AddToGroups(jobs, addr, p);
    hide AddTo;
    if HasGroup(jobs, x) {
      var j :| 0 <= j < |jobs| && SamePlace(jobs[j], x);
      assert SamePlace(after[if HasGroup(jobs, addr) then j else j + 1], x);
    } else {
      assert SamePlace(after[0], x);
    }
  }

  lemma {:induction false} GroupsDiffer(jobs: seq<Job>, after: seq<Job>, addr: Verdict, p: Push)
    requires Distinct(jobs) && after == AddTo(jobs, addr, p)
    ensures Distinct(after)
  {
    AddToGroups(jobs, addr, p);
    hide AddTo;
    if !HasGroup(jobs, addr) {
      forall j | 0 <= j < |jobs|
        ensures jobs[j].addr != addr
      {
        assert !SamePlace(jobs[j], addr);
      }
      forall j | 0 <= j < |after|
        ensures after[j].Calling?
      {
        if j > 0 {
          assert after[j] == jobs[j - 1];
        }
      }
      forall i, j | 0 <= i < j < |after|
        ensures after[i].addr != after[j].addr
      {
        assert after[j] == jobs[j - 1];
        if i > 0 {
          assert after[i] == jobs[i - 1];
        }
      }
    }
  }

  /** The first part of a batch, after some of the look-ups. */
  ghost predicate Sorting(c: Crew, batch: seq<Push>, verdicts: seq<Option<Verdict>>, nodes: map<Verdict, Relay.Queues>)
    requires |verdicts| == |batch|
  {
    && Grouped(c.jobs, batch, verdicts)
    && c.ledger == Ledger([], With(batch, verdicts, Some("")), With(batch, verdicts, None))
    && c.nodes == nodes && c.sent == {} && c.acks == [] && c.notices == []
  }

  lemma SortsOneMore(c: Crew, batch: seq<Push>, verdicts: seq<Option<Verdict>>, nodes: map<Verdict, Relay.Queues>,
                     x: Option<Verdict>)
    requires |verdicts| == |batch| && Sorting(c, batch, verdicts, nodes) && c.parsed != []
    ensures Sorting(Next(c, Classify(x)), batch + [c.parsed[0]], verdicts + [x], nodes)
    ensures Next(c, Classify(x)).parsed == c.parsed[1..]
  {
    hide Grouped, With, AddTo;
    var p := c.parsed[0];
    WithSnoc(batch, verdicts, p, x, None);
    WithSnoc(batch, verdicts, p, x, Some(""));
    if x == None || x == Some("") {
      GroupedStays(c.jobs, batch, verdicts, p, x);
    } else {
      GroupedGrows(c.jobs, batch, verdicts, p, x.value);
    }
  }

  lemma {:induction false} SortsPrefix(batch: seq<Push>, nodes: map<Verdict, Relay.Queues>,
                                       verdicts: seq<Option<Verdict>>, k: nat)
    requires |verdicts| == |batch| && k <= |batch|
    ensures var c0, moves := StartOf(batch, nodes), Classifies(verdicts[..k]);
      && Possible(c0, moves) && RunCrew(c0, moves).parsed == batch[k..]
      && Sorting(RunCrew(c0, moves), batch[..k], verdicts[..k], nodes)
  {
    hide Sorting, Next;
    var moves := Classifies(verdicts[..k]);
    if k == 0 {
      NothingSorted(batch, nodes);
      assert moves == [] && batch[..0] == [] && verdicts[..0] == [];
    } else {
      SortsPrefix(batch, nodes, verdicts, k - 1);
      assert moves[..k - 1] == Classifies(verdicts[..k - 1]);
      var c := RunCrew(StartOf(batch, nodes), moves[..k - 1]);
      SortsOneMore(c, batch[..k - 1], verdicts[..k - 1], nodes, verdicts[k - 1]);
      assert batch[..k] == batch[..k - 1] + [batch[k - 1]] && verdicts[..k] == verdicts[..k - 1] + [verdicts[k - 1]];
    }
  }

  lemma NothingSorted(batch: seq<Push>, nodes: map<Verdict, Relay.Queues>)
    ensures Sorting(StartOf(batch, nodes), [], [], nodes)
  {
  }

  /** The look-ups of a batch, one after the other, leave one group for each address with its pushes in
      the order of the topic, so that no receiver's messages change places; a push whose receiver is
      offline waits for his notice, and one whose look-up failed is only logged. */
  lemma BatchIsGrouped(batch: seq<Push>, nodes: map<Verdict, Relay.Queues>, verdicts: seq<Option<Verdict>>)
    requires |verdicts| == |batch|
    ensures var c0, moves := StartOf(batch, nodes), Classifies(verdicts);
      && Possible(c0, moves) && RunCrew(c0, moves).parsed == []
      && Sorting(RunCrew(c0, moves), batch, verdicts, nodes)
  {
    hide Sorting, RunCrew, Possible;
    SortsPrefix(batch, nodes, verdicts, |batch|);
    assert verdicts[..|batch|] == verdicts && batch[..|batch|] == batch;
  }

  // ---------------------------------------------------------------- the answers of a server

  /** What a server answers to the batch call decides about each push by what it did with the frame: in
      the queue, it is delivered; the receiver not connected there, it will be corrected; anything else
      drops it. */
  lemma {:induction false} BatchSortsByConnection(c: Crew, j: nat, contexts: seq<Relay.Context>, i: nat)
    requires Enabled(c, BatchRpc(j, contexts, None)) && i < |c.jobs[j].pushes|
    requires c.jobs[j].addr in c.nodes && Relay.Bounded(c.nodes[c.jobs[j].addr])
    ensures var queues, pushes := c.nodes[c.jobs[j].addr], c.jobs[j].pushes;
      var results := Relay.EnqueueAll(queues, Relay.MsgFrames(pushes), contexts).results;
      var after := Next(c, BatchRpc(j, contexts, None)).jobs[j];
      && after.Walking? && |after.items| == |pushes| && after.items[i].push == pushes[i]
      && (after.items[i].task == FIRST <==> pushes[i].toUid !in queues)
      && (after.items[i].task == Ended(Delivered) <==> results[i] == Relay.Delivered)
      && (after.items[i].task == Ended(Dropped) <==> pushes[i].toUid in queues && results[i] != Relay.Delivered)
  {
    var queues, pushes := c.nodes[c.jobs[j].addr], c.jobs[j].pushes;
    assert Frames(pushes) == Relay.MsgFrames(pushes);
    Relay.MessagesReachReceivers(queues, pushes, contexts, "", i);
    hide Relay.EnqueueAll, Relay.MessagesTo, Relay.Bounded, Sorted, AfterBatch, ItemFor;
    var results := Relay.EnqueueAll(queues, Frames(pushes), contexts).results;
    AnswerSorts(pushes, results, i);
  }

  lemma {:induction false} AnswerSorts(pushes: seq<Push>, results: seq<Relay.Result>, i: nat)
    requires |results| == |pushes| && i < |pushes|
    ensures var item := Sorted(pushes, Results(Replies(results)))[i];
      && item.push == pushes[i]
      && (item.task == FIRST <==> results[i] == Relay.NotFound)
      && (item.task == Ended(Delivered) <==> results[i] == Relay.Delivered)
      && (item.task == Ended(Dropped) <==> results[i] != Relay.NotFound && results[i] != Relay.Delivered)
  {
    assert Sorted(pushes, Results(Replies(results)))[i] == ItemFor(pushes[i], ReplyOf(results[i]));
  }

  // ---------------------------------------------------------------- the end of a batch

  /** When the goroutines are done and both hooks take what they are given, the batch falls apart into
      three lists: each push of the first has its acknowledgement, in order, and there are no others;
      the second list is handed on for notices; the third is given up. */
  lemma EveryPushIsAccountedFor(batch: seq<Push>, nodes: map<Verdict, Relay.Queues>, moves: seq<Move>)
    returns (delivered: seq<Push>, offline: seq<Push>, dropped: seq<Push>)
    requires Possible(StartOf(batch, nodes), moves) && forall m :: m in moves ==> !m.Flush?
    requires Enabled(RunCrew(StartOf(batch, nodes), moves), Flush(false, false))
    ensures var c := Next(RunCrew(StartOf(batch, nodes), moves), Flush(false, false));
      && multiset(delivered) + multiset(offline) + multiset(dropped) == multiset(batch)
      && |c.acks| == |delivered| && (forall i :: 0 <= i < |delivered| ==> c.acks[i] == AckFromPush(delivered[i]))
      && c.notices == offline && c.ledger == Ledger([], [], dropped)
  {
    hide Possible, RunCrew, Enabled, Next, Total;
    EveryPushMeetsOneFate(batch, nodes, moves, false, false);
    NoAcksYet(batch, nodes, moves);
    var c := RunCrew(StartOf(batch, nodes), moves);
    FlushHandsOn(c);
    delivered, offline, dropped := c.ledger.delivered, c.ledger.offline, c.ledger.dropped;
    TotalMeans(c.ledger);
  }

  lemma TotalMeans(l: Ledger)
    ensures Total(l) == multiset(l.delivered) + multiset(l.offline) + multiset(l.dropped)
  {
  }

  lemma FlushHandsOn(c: Crew)
    requires Enabled(c, Flush(false, false))
    ensures var d, l := Next(c, Flush(false, false)), c.ledger;
      && d.acks == c.acks + AcksFor(l.delivered) && d.notices == c.notices + l.offline
      && d.ledger == Ledger([], [], l.dropped)
  {
  }

  lemma {:induction false} NoAcksYet(batch: seq<Push>, nodes: map<Verdict, Relay.Queues>, moves: seq<Move>)
    requires Possible(StartOf(batch, nodes), moves) && forall m :: m in moves ==> !m.Flush?
    ensures var c := RunCrew(StartOf(batch, nodes), moves); c.acks == [] && c.notices == []
  {
    hide Enabled, Next;
    if moves != [] {
      var k := |moves| - 1;
      NoAcksYet(batch, nodes, moves[..k]);
      KeepsAcks(RunCrew(StartOf(batch, nodes), moves[..k]), moves[k]);
    }
  }

  lemma KeepsAcks(c: Crew, move: Move)
    requires Enabled(c, move) && !move.Flush?
    ensures Next(c, move).acks == c.acks && Next(c, move).notices == c.notices
  {
    hide Sorted, Relay.EnqueueAll, StepTask, AddTo;
  }
}
