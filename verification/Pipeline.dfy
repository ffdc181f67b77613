// From chat.msg to chat.ack: what an acknowledgement says about the tables.
module Pipeline {
  import opened Chat
  import opened Tables
  import opened PersistInvariants
  import Delivered
  import PersistLoop
  import PersistLoopSafety
  import Relay
  import opened Routing
  import DeliveryRuns

  /** A client has named the conversation of this acknowledgement, with a bar in it. */
  ghost predicate BarredAck(s: PersistLoop.Loop, a: Ack) {
    '|' in a.convId && exists i :: 0 <= i < |s.log| && PersistLoopSafety.Names(s.log[i], a.convId)
  }

  /** Take any run of the persist worker with its crashes and outages over any client's frames, any batch
      of pushes that it has written, and any interleaving of the goroutines that deliver the batch,
      against servers that come and go and answers that get lost. Every acknowledgement that comes out
      is for a push that has lain in the queue of its receiver on some server, and carries the id, the
      conversation, the number and the sender of a row that is in the tables, then and in any later
      state, unless its conversation has a bar, as a client's frame has named it. */
  lemma {:induction false} AcknowledgedIsStoredAndQueued(
    s: PersistLoop.Loop, moves: seq<PersistLoop.Move>, batch: seq<Push>, nodes: map<Verdict, Relay.Queues>,
    work: seq<DeliveryRuns.Move>, a: Ack, db: Db)
    requires PersistLoopSafety.LoopInv(s) && PersistLoop.Possible(s, moves)
    requires forall p :: p in batch ==> p in PersistLoop.RunLoop(s, moves).topic
    requires DeliveryRuns.Possible(DeliveryRuns.StartOf(batch, nodes), work)
    requires a in DeliveryRuns.RunCrew(DeliveryRuns.StartOf(batch, nodes), work).acks
    requires Delivered.Later(PersistLoop.RunLoop(s, moves).db, db)
    ensures DeliveryRuns.AckOfRow(db, a) || BarredAck(PersistLoop.RunLoop(s, moves), a)
    ensures exists p :: a == AckFromPush(p) && DeliveryRuns.EverQueued(DeliveryRuns.StartOf(batch, nodes), work, p)
  {
    var t := PersistLoop.RunLoop(s, moves);
    PersistLoopSafety.RunKeepsLoopInv(s, moves);
    DeliveryRuns.AckHasPush(batch, nodes, work, a);
    hide PersistLoop.RunLoop, PersistLoop.Possible, PersistLoopSafety.LoopInv, DeliveryRuns.RunCrew,
         DeliveryRuns.Possible, DeliveryRuns.EverQueued;
    var p :| p in batch && a == AckFromPush(p);
    TopicCarries(t, p);
    AckFromRow(t.db, db, p);
  }

  lemma TopicCarries(t: PersistLoop.Loop, p: Push)
    requires PersistLoopSafety.LoopInv(t) && p in t.topic
    ensures PushOfRow(t.db, p) || PersistLoopSafety.Barred(t.log, p)
  {
    assert PersistLoopSafety.Carries(t, t.db, p);
  }

  lemma AckFromRow(d: Db, db: Db, p: Push)
    requires Delivered.Later(d, db)
    ensures PushOfRow(d, p) ==> DeliveryRuns.AckOfRow(db, AckFromPush(p))
  {
  }
}
