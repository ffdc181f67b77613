// The deliver worker as the program runs it: pending lists, retries, batch calls and their fallback,
// proved against the functions of Delivery.
module DeliverWorker {
  import opened Wrappers
  import opened Chat
  import opened Routing
  import opened Delivery

  /** The route cache and the chat servers as the worker sees them: a script of answers, and a record
      of what the worker did. */
  class Outside {
    var answers: seq<Answer>
    var batchReplies: seq<BatchReply>
    var actions: seq<Action>

    constructor (answers: seq<Answer>, batchReplies: seq<BatchReply>)
      ensures this.answers == answers && this.batchReplies == batchReplies && actions == []
    {
      this.answers, this.batchReplies, this.actions := answers, batchReplies, [];
    }

    method Next() returns (a: Answer)
      modifies this`answers
      ensures a == First(old(answers)) && answers == Later(old(answers))
    {
      a := First(answers);
      answers := Later(answers);
    }

    method Drop(u: Uid)
      modifies this`actions
      ensures actions == old(actions) + [Invalidate(u)]
    {
      actions := actions + [Invalidate(u)];
    }

    method Get(u: Uid) returns (verdict: Option<Verdict>)
      modifies this`answers, this`actions
      ensures actions == old(actions) + [Lookup(u)]
      ensures verdict == First(old(answers)).verdict && answers == Later(old(answers))
    {
      actions := actions + [Lookup(u)];
      var a := Next();
      verdict := a.verdict;
    }

    method Relay(addr: Verdict, p: Push) returns (reply: Reply)
      modifies this`answers, this`actions
      ensures actions == old(actions) + [Unary(addr, p)]
      ensures reply == First(old(answers)).reply && answers == Later(old(answers))
    {
      actions := actions + [Unary(addr, p)];
      var a := Next();
      reply := a.reply;
    }

    method BatchRelay(addr: Verdict, pushes: seq<Push>) returns (reply: BatchReply)
      modifies this`batchReplies, this`actions
      ensures actions == old(actions) + [BatchCall(addr, pushes)]
      ensures reply == if old(batchReplies) == [] then BatchError else old(batchReplies)[0]
      ensures batchReplies == if old(batchReplies) == [] then [] else old(batchReplies)[1..]
    {
      actions := actions + [BatchCall(addr, pushes)];
      if batchReplies == [] {
        return BatchError;
      }
      reply := batchReplies[0];
      batchReplies := batchReplies[1..];
    }
  }

  // ---------------------------------------------------------------- one step of a push

  /** What remains after an attempt: nothing, or the next attempt. */
  ghost function AfterAttempt(p: Push, attempt: nat, failed: bool, fate: Fate, left: seq<Answer>): Run
    requires 1 <= attempt <= RELAY_ATTEMPTS
  {
    if failed then RunTask(p, NextAttempt(Task(attempt, false, Look)), left) else Run(fate, [], left)
  }

  lemma {:induction false} LookStep(p: Push, attempt: nat, corrected: bool, answers: seq<Answer>)
    requires 1 <= attempt <= RELAY_ATTEMPTS
    ensures var verdict := First(answers).verdict;
      var next := if verdict == None then NextAttempt(Task(attempt, false, Look))
                  else if verdict.value == "" then Ended(Offline)
                  else Task(attempt, corrected, Call(verdict.value));
      && Sane(next)
      && var r := RunTask(p, next, Later(answers));
         RunTask(p, Task(attempt, corrected, Look), answers) == Run(r.fate, [Lookup(p.toUid)] + r.actions, r.left)
  {
    hide First, Later, Fuel;
    RunStep(p, Task(attempt, corrected, Look), answers);
  }

  lemma {:induction false} CallStep(p: Push, attempt: nat, corrected: bool, addr: Verdict, answers: seq<Answer>)
    requires 1 <= attempt <= RELAY_ATTEMPTS
    ensures var reply := First(answers).reply;
      var next := match reply
        case RpcError => NextAttempt(Task(attempt, false, Look))
        case Accepted => Ended(Delivered)
        case NotFound => if corrected then Ended(Dropped) else Task(attempt, true, Look)
        case Refused => Ended(Dropped);
      var did := [Unary(addr, p)] + if reply == NotFound && !corrected then [Invalidate(p.toUid)] else [];
      && Sane(next)
      && var r := RunTask(p, next, Later(answers));
         RunTask(p, Task(attempt, corrected, Call(addr)), answers) == Run(r.fate, did + r.actions, r.left)
  {
    hide First, Later, Fuel;
    RunStep(p, Task(attempt, corrected, Call(addr)), answers);
  }

  lemma Regroup(a: seq<Action>, b: seq<Action>, c: seq<Action>)
    ensures (a + b) + c == a + (b + c)
  {
  }

  class Worker {
    const outside: Outside
    const batchAcks: bool     // is there a hook that takes the delivered pushes of a batch at once?
    const batchNotices: bool  // and one for those of offline users?
    var collecting: bool
    var pending: seq<Push>
    var pendingOffline: seq<Push>
    var dropped: seq<Push>   // only logged
    var acked: seq<Push>     // handed to a delivered hook
    var notified: seq<Push>  // handed to an offline hook

    constructor (outside: Outside, batchAcks: bool, batchNotices: bool)
      ensures this.outside == outside && this.batchAcks == batchAcks && this.batchNotices == batchNotices && !collecting
      ensures pending == pendingOffline == dropped == acked == notified == []
    {
      this.outside, this.batchAcks, this.batchNotices := outside, batchAcks, batchNotices;
      collecting := false;
      pending, pendingOffline, dropped, acked, notified := [], [], [], [], [];
    }

    /** Where pushes end up: in the pending lists during a batch, with the hooks outside one. */
    function Ledger(): Ledger
      reads this
    {
      if collecting then Delivery.Ledger(pending, pendingOffline, dropped)
      else Delivery.Ledger(acked, notified, dropped)
    }

    /** The lists that are not in use. */
    function Aside(): (seq<Push>, seq<Push>)
      reads this
    {
      if collecting then (acked, notified) else (pending, pendingOffline)
    }

    method BookDelivered(p: Push)
      modifies this`pending, this`acked
      ensures Ledger() == Record(old(Ledger()), p, Delivered) && Aside() == old(Aside())
    {
      if collecting {
        pending := pending + [p];
      } else {
        acked := acked + [p];
      }
    }

    /** The push is only logged. */
    method Drop(p: Push)
      modifies this`dropped
      ensures Ledger() == Record(old(Ledger()), p, Dropped) && Aside() == old(Aside())
    {
      dropped := dropped + [p];
    }

    method OfflineOrQueue(p: Push)
      modifies this`pendingOffline, this`notified
      ensures Ledger() == Record(old(Ledger()), p, Offline) && Aside() == old(Aside())
    {
      if collecting {
        pendingOffline := pendingOffline + [p];
      } else {
        notified := notified + [p];
      }
    }

    /** One attempt: look up, call, and after a not_found look up and call once more. */
    method Deliver(p: Push, ghost attempt: nat) returns (failed: bool, ghost fate: Fate, ghost did: seq<Action>)
      requires 1 <= attempt <= RELAY_ATTEMPTS
      modifies this`pending, this`pendingOffline, this`dropped, this`acked, this`notified, outside`answers, outside`actions
      ensures Aside() == old(Aside()) && outside.actions == old(outside.actions) + did
      ensures Ledger() == if failed then old(Ledger()) else Record(old(Ledger()), p, fate)
      ensures var r := AfterAttempt(p, attempt, failed, fate, outside.answers);
        RunTask(p, Task(attempt, false, Look), old(outside.answers)) == Run(r.fate, did + r.actions, r.left)
    {
      hide RunTask, First, Later, Fuel, Record, Ledger, Aside, StepTask, ActionsOf, NextAttempt;
      fate := Dropped;
      LookStep(p, attempt, false, outside.answers);
      var addr := outside.Get(p.toUid);
      did := [Lookup(p.toUid)];
      if addr == None {
        return true, fate, did;
      }
      if addr.value == "" {
        OfflineOrQueue(p);
        Ends(p, Offline, outside.answers);
        return false, Offline, did;
      }
      CallStep(p, attempt, false, addr.value, outside.answers);
      ghost var call := [Unary(addr.value, p)];
      var reply := outside.Relay(addr.value, p);
      if reply == RpcError {
        did := did + call;
        return true, fate, did;
      }
      if reply == NotFound {
        outside.Drop(p.toUid);
        LookStep(p, attempt, true, outside.answers);
        addr := outside.Get(p.toUid);
        did := did + (call + [Invalidate(p.toUid)]) + [Lookup(p.toUid)];
        if addr == None {
          return true, fate, did;
        }
        if addr.value == "" {
          OfflineOrQueue(p);
          Ends(p, Offline, outside.answers);
          return false, Offline, did;
        }
        CallStep(p, attempt, true, addr.value, outside.answers);
        reply := outside.Relay(addr.value, p);
        did := did + [Unary(addr.value, p)];
        if reply == RpcError {
          return true, fate, did;
        }
      } else {
        did := did + call;
      }
      failed := false;
      if reply == Accepted {
        fate := Delivered;
        BookDelivered(p);
      } else {
        Drop(p);
      }
      Ends(p, fate, outside.answers);
    }

    /** Up to three attempts with a backoff in between; before each further one the route is dropped. */
    method DeliverWithRetry(p: Push)
      modifies this`pending, this`pendingOffline, this`dropped, this`acked, this`notified, outside`answers, outside`actions
      ensures var r := RunTask(p, FIRST, old(outside.answers));
        && outside.answers == r.left
        && outside.actions == old(outside.actions) + r.actions
        && Ledger() == Record(old(Ledger()), p, r.fate) && Aside() == old(Aside())
    {
      hide RunTask, First, Later, Fuel;
      ghost var did: seq<Action> := [];
      ghost var start := RunTask(p, FIRST, outside.answers);
      var attempt := 1;
      while attempt <= RELAY_ATTEMPTS
        invariant 1 <= attempt <= RELAY_ATTEMPTS + 1
        invariant Ledger() == old(Ledger()) && Aside() == old(Aside()) && outside.actions == old(outside.actions) + did
        invariant var t := if attempt > RELAY_ATTEMPTS then Ended(Dropped)
                           else Task(attempt, false, if attempt == 1 then Look else Wait);
          var r := RunTask(p, t, outside.answers); start == Run(r.fate, did + r.actions, r.left)
      {
        if attempt > 1 {
          RunStep(p, Task(attempt, false, Wait), outside.answers);
          outside.Drop(p.toUid);
          ghost var next := StepTask(Task(attempt, false, Wait), First(outside.answers));
          Regroup(did, [Invalidate(p.toUid)], RunTask(p, next, Later(outside.answers)).actions);
          Regroup(old(outside.actions), did, [Invalidate(p.toUid)]);
          did := did + [Invalidate(p.toUid)];
          var a := outside.Next();
          if a.cancelled {
            dropped := dropped + [p];
            Ends(p, Dropped, outside.answers);
            return;
          }
        }
        var failed;
        ghost var fate, more;
        failed, fate, more := Deliver(p, attempt);
        Regroup(did, more, AfterAttempt(p, attempt, failed, fate, outside.answers).actions);
        Regroup(old(outside.actions), did, more);
        did := did + more;
        if !failed {
          return;
        }
        attempt := attempt + 1;
      }
      dropped := dropped + [p];
      Ends(p, Dropped, outside.answers);
    }

    method DeliverIndividually(pushes: seq<Push>)
      modifies this`pending, this`pendingOffline, this`dropped, this`acked, this`notified, outside`answers, outside`actions
      ensures var w := WalkItems(old(Ledger()), Singly(pushes), false, old(outside.answers));
        Ledger() == w.ledger && Aside() == old(Aside()) && outside.answers == w.left
        && outside.actions == old(outside.actions) + w.actions
    {
      hide RunTask, First, Later, Fuel, Record;
      for i := 0 to |pushes|
        invariant var w := WalkItems(old(Ledger()), Singly(pushes)[..i], false, old(outside.answers));
          Ledger() == w.ledger && Aside() == old(Aside()) && outside.answers == w.left
          && outside.actions == old(outside.actions) + w.actions
      {
        WalkMore(old(Ledger()), Singly(pushes), i, false, old(outside.answers));
        DeliverWithRetry(pushes[i]);
      }
      assert Singly(pushes)[..|pushes|] == Singly(pushes);
    }

    /** One batch call for everything that goes to the same server; without usable results every push
        goes out by itself. */
    method DeliverBatch(addr: Verdict, pushes: seq<Push>)
      requires collecting
      modifies this`pending, this`pendingOffline, this`dropped, this`acked, this`notified,
               outside`answers, outside`actions, outside`batchReplies
      ensures var reply := if old(outside.batchReplies) == [] then BatchError else old(outside.batchReplies)[0];
        var w := Delivery.DeliverBatch(old(Ledger()), addr, pushes, reply, old(outside.answers));
        Ledger() == w.ledger && Aside() == old(Aside()) && outside.answers == w.left
        && outside.actions == old(outside.actions) + w.actions
    {
      var reply := outside.BatchRelay(addr, pushes);
      SortedMeans(pushes, reply);
      hide RunTask, First, Later, Fuel, Record, Sorted, Singly, WalkItems, ItemFor;
      if reply == BatchError || |reply.replies| != |pushes| {
        DeliverIndividually(pushes);
        ghost var w := WalkItems(old(Ledger()), Singly(pushes), false, old(outside.answers));
        Regroup(old(outside.actions), [BatchCall(addr, pushes)], w.actions);
      } else {
        TakeResults(pushes, reply.replies);
        ghost var w := WalkItems(old(Ledger()), Sorted(pushes, reply), true, old(outside.answers));
        Regroup(old(outside.actions), [BatchCall(addr, pushes)], w.actions);
      }
    }

    method TakeResults(pushes: seq<Push>, replies: seq<Reply>)
      requires collecting && |replies| == |pushes|
      modifies this`pending, this`pendingOffline, this`dropped, this`acked, this`notified, outside`answers, outside`actions
      ensures var w := WalkItems(old(Ledger()), Sorted(pushes, Results(replies)), true, old(outside.answers));
        Ledger() == w.ledger && Aside() == old(Aside()) && outside.answers == w.left
        && outside.actions == old(outside.actions) + w.actions
    {
      ghost var items := Sorted(pushes, Results(replies));
      hide RunTask, First, Later, Fuel, Record, ItemFor;
      for i := 0 to |pushes|
        invariant var w := WalkItems(old(Ledger()), items[..i], true, old(outside.answers));
          Ledger() == w.ledger && Aside() == old(Aside()) && outside.answers == w.left
          && outside.actions == old(outside.actions) + w.actions
      {
        WalkMore(old(Ledger()), items, i, true, old(outside.answers));
        TakeResult(pushes[i], replies[i]);
      }
      assert items[..|pushes|] == items;
    }

    /** One result of a batch call: book it, or drop the route and send the push out by itself. */
    method TakeResult(p: Push, reply: Reply)
      requires collecting
      modifies this`pending, this`pendingOffline, this`dropped, this`acked, this`notified, outside`answers, outside`actions
      ensures var t := ItemFor(p, reply).task;
        var r := RunTask(p, t, old(outside.answers));
        && Ledger() == Record(old(Ledger()), p, r.fate) && Aside() == old(Aside()) && outside.answers == r.left
        && outside.actions ==
             old(outside.actions) + (if t == FIRST then [Invalidate(p.toUid)] else []) + r.actions
    {
      match reply {
        case Accepted =>
          Ends(p, Delivered, outside.answers);
          pending := pending + [p];
        case NotFound =>
          outside.Drop(p.toUid);
          DeliverSingly(p);
        case _ =>
          Ends(p, Dropped, outside.answers);
          dropped := dropped + [p];
      }
    }

    method DeliverSingly(p: Push)
      modifies this`pending, this`pendingOffline, this`dropped, this`acked, this`notified, outside`answers, outside`actions
      ensures var r := RunTask(p, FIRST, old(outside.answers));
        && outside.answers == r.left && outside.actions == old(outside.actions) + r.actions
        && Ledger() == Record(old(Ledger()), p, r.fate) && Aside() == old(Aside())
    {
      hide RunTask, First, Later, Fuel, Record;
      WalkMore(Ledger(), Singly([p]), 0, false, outside.answers);
      assert Singly([p])[..0] == [] && Singly([p])[..1] == Singly([p]);
      DeliverIndividually([p]);
    }

    /** The end of a batch: both lists are emptied and handed on, at once to a hook for batches, which may
        fail, and otherwise one by one. After a failure the offsets are not committed and the whole
        batch comes again. */
    method FlushDelivered(ackFails: bool, notifyFails: bool) returns (ok: bool)
      modifies this`pending, this`pendingOffline, this`acked, this`notified
      ensures pending == [] && pendingOffline == []
      ensures var acksFail := batchAcks && old(pending) != [] && ackFails;
        && acked == (if acksFail then old(acked) else old(acked) + old(pending))
        && notified == (if ok then old(notified) + old(pendingOffline) else old(notified))
        && (ok <==> !acksFail && !(batchNotices && old(pendingOffline) != [] && notifyFails))
    {
      var sent, offline := pending, pendingOffline;
      pending, pendingOffline := [], [];
      if batchAcks {
        if sent != [] {
          if ackFails {
            return false;
          }
          acked := acked + sent;
        }
      } else {
        for i := 0 to |sent|
          invariant acked == old(acked) + sent[..i] && notified == old(notified) && pending == pendingOffline == []
        {
          acked := acked + [sent[i]];
          assert sent[..i + 1] == sent[..i] + [sent[i]];
        }
        assert sent[..|sent|] == sent;
      }
      if batchNotices {
        if offline != [] {
          if notifyFails {
            return false;
          }
          notified := notified + offline;
        }
      } else {
        for i := 0 to |offline|
          invariant notified == old(notified) + offline[..i] && acked == old(acked) + sent && pending == pendingOffline == []
        {
          notified := notified + [offline[i]];
          assert offline[..i + 1] == offline[..i] + [offline[i]];
        }
        assert offline[..|offline|] == offline;
      }
      ok := true;
    }
  }

  function Singly(pushes: seq<Push>): (items: seq<Item>)
    ensures |items| == |pushes|
    ensures forall i :: 0 <= i < |pushes| ==> items[i] == Item(pushes[i], FIRST)
  {
    seq(|pushes|, i requires 0 <= i < |pushes| => Item(pushes[i], FIRST))
  }

  lemma SortedMeans(pushes: seq<Push>, reply: BatchReply)
    ensures if reply.Results? && |reply.replies| == |pushes|
            then forall i :: 0 <= i < |pushes| ==> Sorted(pushes, reply)[i] == ItemFor(pushes[i], reply.replies[i])
            else Sorted(pushes, reply) == Singly(pushes)
  {
  }

  lemma {:induction false} WalkMore(l: Ledger, items: seq<Item>, i: nat, fromBatch: bool, answers: seq<Answer>)
    requires i < |items| && forall it :: it in items ==> Sane(it.task)
    ensures forall it :: it in items[..i] || it in items[..i + 1] ==> Sane(it.task)
    ensures Sane(items[i].task)
    ensures var before := WalkItems(l, items[..i], fromBatch, answers);
      var r := RunTask(items[i].push, items[i].task, before.left);
      WalkItems(l, items[..i + 1], fromBatch, answers) ==
        Walk(Record(before.ledger, items[i].push, r.fate),
             before.actions
             + (if fromBatch && items[i].task == FIRST then [Invalidate(items[i].push.toUid)] else [])
             + r.actions,
             r.left)
  {
    assert items[..i + 1][..i] == items[..i];
    assert items[i] in items;
  }
}
