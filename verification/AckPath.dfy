// The way of one acknowledgement back to the sender of the message: from the delivered push, through the
// dispatch on one chat server, into a send queue on the sender's own.
module AckPath {
  import opened Wrappers
  import opened Chat
  import opened Tables
  import opened OnlineKv
  import opened AckDispatch
  import GhostSweep
  import Relay

  /** Where the record of a user says he is, empty when there is none. */
  function Home(t: Table, u: Uid): Addr {
    if OnlineKey(u) in t && t[OnlineKey(u)].route.Some? then t[OnlineKey(u)].route.value else ""
  }

  /** What a server writes when a user connects sends his acknowledgements to its address, and the sweep
      and the removals go by its name. */
  lemma RegistrationLeadsHome(t: Table, u: Uid, cs: string, addr: Addr, alive: set<string>, others: seq<Uid>)
    ensures var after := t[OnlineKey(u) := Written(cs, addr)];
      && Home(after, u) == addr
      && (u in others && LookUp(Some(after), others).Some? ==>
            u in LookUp(Some(after), others).value && LookUp(Some(after), others).value[u] == addr)
      && (GhostSweep.Dead(after[OnlineKey(u)], alive) <==> cs !in alive)
      && (forall self :: OnlineKey(u) in WithoutMatch(after, OnlineKey(u), self) <==> self != cs)
  {
  }

  predicate Carries(requests: seq<Request>, addr: Addr, a: Ack) {
    exists i :: 0 <= i < |requests| && requests[i].addr == addr && a in requests[i].acks
  }

  /** The first round of a dispatch sends the acknowledgement of a push to the server that the record of
      its sender names, and to no other; it is tried on this server exactly if that is the one. */
  lemma {:induction false} AckIsSentHome(p: Push, acks: seq<Ack>, t: Table, here: Addr, requests: seq<Request>,
                                         addr: Addr)
    requires AckFromPush(p) in acks && LookUp(Some(t), FromUids(acks)).Some?
    requires WholeRound(requests, acks, LookUp(Some(t), FromUids(acks)).value, here)
    ensures var owners, home := LookUp(Some(t), FromUids(acks)).value, Home(t, p.fromUid);
      && (Carries(requests, addr, AckFromPush(p)) <==> addr == home && home != "" && home != here)
      && (AckFromPush(p) in For(acks, owners, here, Local) <==> home != "" && home == here)
  {
    hide For, FromUids, WholeRound;
    var a, owners := AckFromPush(p), LookUp(Some(t), FromUids(acks)).value;
    var k :| 0 <= k < |acks| && acks[k] == a;
    FromUidsMeans(acks, a.fromUid);
    SendersAreServed(requests, acks, owners, here, a);
    if a in Carried(requests) {
      CarriedIsSomewhere(requests, a);
    }
  }

  lemma {:induction false} CarriedIsSomewhere(requests: seq<Request>, a: Ack)
    requires a in Carried(requests)
    ensures exists i :: 0 <= i < |requests| && a in requests[i].acks
  {
    var k := |requests| - 1;
    if a in Carried(requests[..k]) {
      CarriedIsSomewhere(requests[..k], a);
    } else {
      assert a in requests[k].acks;
    }
  }

  /** On a server that gets the acknowledgement of a push and accepts it, it lies in the queue of the one
      who sent the message, and in nobody else's who had none of it before. */
  lemma {:induction false} AckIsQueuedForSender(p: Push, acks: seq<Ack>, queues: Relay.Queues,
                                                ctxs: seq<Relay.Context>, i: nat)
    requires |acks| == |ctxs| && Relay.Bounded(queues) && i < |acks| && acks[i] == AckFromPush(p)
    requires Relay.EnqueueAll(queues, Relay.AckFrames(acks), ctxs).results[i] == Relay.Delivered
    ensures var after, f := Relay.EnqueueAll(queues, Relay.AckFrames(acks), ctxs).queues, Relay.AckFrame(AckFromPush(p));
      && p.fromUid in queues && p.fromUid in after && f in after[p.fromUid]
      && (forall v :: v in after && v != p.fromUid ==> v in queues && (f in after[v] <==> f in queues[v]))
  {
    var r, f := Relay.EnqueueAll(queues, Relay.AckFrames(acks), ctxs), Relay.AckFrame(AckFromPush(p));
    Relay.AcksReachSenders(queues, acks, ctxs, p.fromUid, i);
    Relay.AcksFromMeans(acks, r.results, p.fromUid, f);
    hide Relay.EnqueueAll, Relay.AcksFrom, Relay.Bounded;
    forall v | v in r.queues && v != p.fromUid
      ensures f in r.queues[v] <==> f in queues[v]
    {
      Relay.AcksReachSenders(queues, acks, ctxs, v, i);
      Relay.AcksFromMeans(acks, r.results, v, f);
    }
  }

  /** All the way: the acknowledgement of a push, in a batch dispatched to the server its sender's record
      names, ends there in the sender's queue and in nobody else's, if it is accepted; and it is refused
      as not found exactly if the sender has no connection there. */
  lemma {:induction false} AckComesHome(p: Push, acks: seq<Ack>, t: Table, here: Addr, requests: seq<Request>,
                     queues: Relay.Queues, ctxs: seq<Relay.Context>, k: nat, i: nat)
    requires AckFromPush(p) in acks && LookUp(Some(t), FromUids(acks)).Some?
    requires WholeRound(requests, acks, LookUp(Some(t), FromUids(acks)).value, here)
    requires k < |requests| && i < |requests[k].acks| && requests[k].acks[i] == AckFromPush(p)
    requires |ctxs| == |requests[k].acks| && Relay.Bounded(queues)
    ensures requests[k].addr == Home(t, p.fromUid) != ""
    ensures var r, f := Relay.EnqueueAll(queues, Relay.AckFrames(requests[k].acks), ctxs), Relay.AckFrame(AckFromPush(p));
      && (r.results[i] == Relay.NotFound <==> p.fromUid !in queues)
      && (r.results[i] == Relay.Delivered ==>
            && p.fromUid in r.queues && f in r.queues[p.fromUid]
            && forall v :: v in r.queues && v != p.fromUid ==> v in queues && (f in r.queues[v] <==> f in queues[v]))
  {
    hide Relay.EnqueueAll, Relay.Bounded, For, FromUids, WholeRound, LookUp, Home, Relay.AcksFrom;
    assert Carries(requests, requests[k].addr, AckFromPush(p));
    AckIsSentHome(p, acks, t, here, requests, requests[k].addr);
    Relay.AcksReachSenders(queues, requests[k].acks, ctxs, p.fromUid, i);
    if Relay.EnqueueAll(queues, Relay.AckFrames(requests[k].acks), ctxs).results[i] == Relay.Delivered {
      AckIsQueuedForSender(p, requests[k].acks, queues, ctxs, i);
    }
  }

  /** The attempts on this server are one such request, too, by a caller that does not wait: the
      acknowledgement lies in the sender's queue exactly if he is connected and there is room. */
  lemma {:induction false} LocalAckIsQueued(p: Push, locals: seq<Ack>, queues: Relay.Queues, i: nat)
    requires Relay.Bounded(queues) && i < |locals| && locals[i] == AckFromPush(p)
    ensures var r := Relay.EnqueueAll(queues, Relay.AckFrames(locals), seq(|locals|, _ => Relay.Live));
      r.results[i] == Relay.Delivered <==>
      && p.fromUid in queues
      && |queues[p.fromUid]| + |Relay.AcksFrom(locals[..i], r.results[..i], p.fromUid)| < 32
  {
    hide Relay.EnqueueAll, Relay.Bounded, Relay.AcksFrom;
    Relay.AcksReachSenders(queues, locals, seq(|locals|, _ => Relay.Live), p.fromUid, i);
  }
}
