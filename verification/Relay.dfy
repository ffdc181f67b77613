// The receiving end of delivery on a chat server: frames go into the bounded send queue of the
// addressed connection, or are refused with a reason.
module Relay {
  import opened Chat

  /** A frame for a client: a message or an acknowledgement. */
  datatype Frame = MsgFrame(push: Push) | AckFrame(ack: Ack)

  datatype Result = Delivered | NotFound | MarshalError | SendFull | Canceled

  /** Whether the caller's context is still live when the frame is about to be queued. When it is done
      and the queue has room, the select statement takes either branch. A frame whose content is no
      JSON does not get that far. */
  datatype Context = Live | Done(sendFirst: bool) | Unencodable

  const SEND_CAPACITY := 32

  type Queues = map<Uid, seq<Frame>>

  /** The select statement on a queue that holds `length` frames. */
  function Select(length: nat, ctx: Context): Result
    requires ctx != Unencodable
  {
    var room := length < SEND_CAPACITY;
    match ctx
    case Live => if room then Delivered else SendFull
    case Done(sendFirst) => if room && sendFirst then Delivered else Canceled
  }

  function Answer(queues: Queues, to: Uid, ctx: Context): Result {
    if to !in queues then NotFound
    else if ctx == Unencodable then MarshalError
    else Select(|queues[to]|, ctx)
  }

  function Receiver(f: Frame): Uid {
    match f
    case MsgFrame(p) => p.toUid
    case AckFrame(a) => a.fromUid
  }

  function Enqueue(queues: Queues, f: Frame, ctx: Context): Queues {
    if Answer(queues, Receiver(f), ctx) == Delivered
    then queues[Receiver(f) := queues[Receiver(f)] + [f]]
    else queues
  }

  datatype Batch = Batch(queues: Queues, results: seq<Result>)

  /** The frames of a request one after the other. */
  function EnqueueAll(queues: Queues, fs: seq<Frame>, ctxs: seq<Context>): (r: Batch)
    requires |fs| == |ctxs|
    ensures |r.results| == |fs|
  {
    if fs == [] then Batch(queues, [])
    else
      var k := |fs| - 1;
      var before := EnqueueAll(queues, fs[..k], ctxs[..k]);
      Batch(Enqueue(before.queues, fs[k], ctxs[k]),
            before.results + [Answer(before.queues, Receiver(fs[k]), ctxs[k])])
  }

  // ---------------------------------------------------------------- what a batch does

  /** The frames for a user that were accepted, in the order of the request. */
  function AcceptedFor(fs: seq<Frame>, results: seq<Result>, u: Uid): seq<Frame>
    requires |fs| == |results|
  {
    if fs == [] then []
    else
      var k := |fs| - 1;
      AcceptedFor(fs[..k], results[..k], u)
      + if Receiver(fs[k]) == u && results[k] == Delivered then [fs[k]] else []
  }

  function Bounded(queues: Queues): bool {
    forall u :: u in queues ==> |queues[u]| <= SEND_CAPACITY
  }

  lemma EnqueueOne(queues: Queues, f: Frame, ctx: Context)
    requires Bounded(queues)
    ensures var r, q := Answer(queues, Receiver(f), ctx), Enqueue(queues, f, ctx);
      && q.Keys == queues.Keys && Bounded(q)
      && (forall u :: u in queues ==> q[u] == queues[u] + if Receiver(f) == u && r == Delivered then [f] else [])
      && (r == NotFound <==> Receiver(f) !in queues)
      && (r == MarshalError <==> Receiver(f) in queues && ctx == Unencodable)
  {
  }

  /** Results line up with the request by index; each connection gets the frames accepted for it
      behind what it had, in request order, and nothing else changes; no queue grows beyond its
      capacity; a frame is refused as not found exactly when the user has no connection here. */
  lemma {:induction false} BatchQueues(queues: Queues, fs: seq<Frame>, ctxs: seq<Context>)
    requires |fs| == |ctxs| && Bounded(queues)
    ensures var r := EnqueueAll(queues, fs, ctxs);
      && r.queues.Keys == queues.Keys
      && (forall u :: u in queues ==> r.queues[u] == queues[u] + AcceptedFor(fs, r.results, u))
      && Bounded(r.queues)
      && (forall i :: 0 <= i < |fs| ==> (r.results[i] == NotFound <==> Receiver(fs[i]) !in queues))
  {
    if fs != [] {
      hide Answer, Enqueue, Receiver, AcceptedFor;
      var k := |fs| - 1;
      BatchQueues(queues, fs[..k], ctxs[..k]);
      var before, r := EnqueueAll(queues, fs[..k], ctxs[..k]), EnqueueAll(queues, fs, ctxs);
      assert r.results[..k] == before.results;
      EnqueueOne(before.queues, fs[k], ctxs[k]);
      forall u | u in queues
        ensures r.queues[u] == queues[u] + AcceptedFor(fs, r.results, u)
      {
        AcceptedSnoc(fs, r.results, u);
        OneMore(queues[u], AcceptedFor(fs[..k], before.results, u), fs[k]);
      }
    }
  }

  /** A frame is refused for its encoding exactly when it does not encode and the user is here. */
  lemma {:induction false} MarshalErrorMeans(queues: Queues, fs: seq<Frame>, ctxs: seq<Context>, i: nat)
    requires |fs| == |ctxs| && Bounded(queues) && i < |fs|
    ensures EnqueueAll(queues, fs, ctxs).results[i] == MarshalError <==>
      Receiver(fs[i]) in queues && ctxs[i] == Unencodable
  {
    hide Answer, Enqueue, Receiver, AcceptedFor;
    var k := |fs| - 1;
    if i < k {
      MarshalErrorMeans(queues, fs[..k], ctxs[..k], i);
    } else {
      BatchQueues(queues, fs[..k], ctxs[..k]);
      EnqueueOne(EnqueueAll(queues, fs[..k], ctxs[..k]).queues, fs[k], ctxs[k]);
    }
  }

  lemma {:induction false} AcceptedSnoc(fs: seq<Frame>, results: seq<Result>, u: Uid)
    requires |fs| == |results| && fs != []
    ensures var k := |fs| - 1;
      AcceptedFor(fs, results, u) == AcceptedFor(fs[..k], results[..k], u)
        + if Receiver(fs[k]) == u && results[k] == Delivered then [fs[k]] else []
  {
  }

  lemma OneMore(a: seq<Frame>, b: seq<Frame>, f: Frame)
    ensures (a + b) + [f] == a + (b + [f])
    ensures (a + b) + [] == a + (b + [])
  {
  }

  lemma LastFull(queues: Queues, fs: seq<Frame>, ctxs: seq<Context>)
    requires |fs| == |ctxs| && Bounded(queues) && fs != [] && ctxs[|fs| - 1] == Live && Receiver(fs[|fs| - 1]) in queues
    ensures var k := |fs| - 1;
      var r := EnqueueAll(queues, fs, ctxs);
      var before := EnqueueAll(queues, fs[..k], ctxs[..k]).results;
      && (r.results[k] == SendFull <==>
            |queues[Receiver(fs[k])]| + |AcceptedFor(fs[..k], before, Receiver(fs[k]))| == SEND_CAPACITY)
      && r.results[k] in {Delivered, SendFull}
  {
    var k := |fs| - 1;
    BatchQueues(queues, fs[..k], ctxs[..k]);
    hide Receiver, AcceptedFor, Enqueue;
  }

  lemma {:induction false} BatchPrefix(queues: Queues, fs: seq<Frame>, ctxs: seq<Context>)
    requires |fs| == |ctxs| && fs != []
    ensures var k := |fs| - 1;
      EnqueueAll(queues, fs, ctxs).results[..k] == EnqueueAll(queues, fs[..k], ctxs[..k]).results
  {
    hide Answer, Enqueue;
  }

  /** A frame of a live request is refused as send_full only when its connection holds a full queue. */
  lemma {:induction false} FullMeansFull(queues: Queues, fs: seq<Frame>, ctxs: seq<Context>, i: nat)
    requires |fs| == |ctxs| && Bounded(queues) && i < |fs| && ctxs[i] == Live && Receiver(fs[i]) in queues
    ensures var r := EnqueueAll(queues, fs, ctxs);
      r.results[i] == SendFull <==>
      |queues[Receiver(fs[i])]| + |AcceptedFor(fs[..i], r.results[..i], Receiver(fs[i]))| == SEND_CAPACITY
    ensures EnqueueAll(queues, fs, ctxs).results[i] in {Delivered, SendFull}
  {
    hide EnqueueAll, Receiver, AcceptedFor, Bounded;
    var k := |fs| - 1;
    var before, r := EnqueueAll(queues, fs[..k], ctxs[..k]), EnqueueAll(queues, fs, ctxs);
    BatchPrefix(queues, fs, ctxs);
    if i < k {
      FullMeansFull(queues, fs[..k], ctxs[..k], i);
      assert r.results[i] == r.results[..k][i];
      assert fs[..k][..i] == fs[..i] && before.results[..i] == r.results[..i];
    } else {
      LastFull(queues, fs, ctxs);
    }
  }

  // ---------------------------------------------------------------- whose queue

  function AckFrames(acks: seq<Ack>): (fs: seq<Frame>)
    ensures |fs| == |acks| && forall i :: 0 <= i < |acks| ==> fs[i] == AckFrame(acks[i])
  {
    seq(|acks|, i requires 0 <= i < |acks| => AckFrame(acks[i]))
  }

  function MsgFrames(pushes: seq<Push>): (fs: seq<Frame>)
    ensures |fs| == |pushes| && forall i :: 0 <= i < |pushes| ==> fs[i] == MsgFrame(pushes[i])
  {
    seq(|pushes|, i requires 0 <= i < |pushes| => MsgFrame(pushes[i]))
  }

  /** The acknowledgements of messages that u has sent, as far as they were accepted, in order. */
  function AcksFrom(acks: seq<Ack>, results: seq<Result>, u: Uid): seq<Frame>
    requires |acks| == |results|
  {
    if acks == [] then []
    else
      var k := |acks| - 1;
      AcksFrom(acks[..k], results[..k], u)
      + if acks[k].fromUid == u && results[k] == Delivered then [AckFrame(acks[k])] else []
  }

  /** The messages to u, as far as they were accepted, in order. */
  function MessagesTo(pushes: seq<Push>, results: seq<Result>, u: Uid): seq<Frame>
    requires |pushes| == |results|
  {
    if pushes == [] then []
    else
      var k := |pushes| - 1;
      MessagesTo(pushes[..k], results[..k], u)
      + if pushes[k].toUid == u && results[k] == Delivered then [MsgFrame(pushes[k])] else []
  }

  lemma {:induction false} AcksAreAccepted(acks: seq<Ack>, results: seq<Result>, u: Uid)
    requires |acks| == |results|
    ensures AcceptedFor(AckFrames(acks), results, u) == AcksFrom(acks, results, u)
  {
    if acks != [] {
      var k := |acks| - 1;
      AcksAreAccepted(acks[..k], results[..k], u);
      assert AckFrames(acks)[..k] == AckFrames(acks[..k]);
    }
  }

  lemma {:induction false} MessagesAreAccepted(pushes: seq<Push>, results: seq<Result>, u: Uid)
    requires |pushes| == |results|
    ensures AcceptedFor(MsgFrames(pushes), results, u) == MessagesTo(pushes, results, u)
  {
    if pushes != [] {
      var k := |pushes| - 1;
      MessagesAreAccepted(pushes[..k], results[..k], u);
      assert MsgFrames(pushes)[..k] == MsgFrames(pushes[..k]);
    }
  }

  /** What a frame comes to, for a user whose queue holds so many frames when its turn comes. */
  predicate Comes(r: Result, connected: bool, length: int, ctx: Context) {
    && (r == NotFound <==> !connected)
    && (r == MarshalError <==> connected && ctx == Unencodable)
    && (r == Delivered <==> connected && length < 32 && (ctx == Live || ctx == Done(true)))
    && (r == SendFull <==> connected && length == 32 && ctx == Live)
    && (r == Canceled <==> connected && ctx.Done? && !(length < 32 && ctx.sendFirst))
  }

  lemma LastComes(queues: Queues, fs: seq<Frame>, ctxs: seq<Context>)
    requires |fs| == |ctxs| && Bounded(queues) && fs != []
    ensures var k := |fs| - 1;
      var u, before := Receiver(fs[k]), EnqueueAll(queues, fs[..k], ctxs[..k]).results;
      Comes(EnqueueAll(queues, fs, ctxs).results[k], u in queues,
            if u in queues then |queues[u]| + |AcceptedFor(fs[..k], before, u)| else 0, ctxs[k])
  {
    var k := |fs| - 1;
    BatchQueues(queues, fs[..k], ctxs[..k]);
    hide Receiver, AcceptedFor, Enqueue;
  }

  lemma {:induction false} EachComes(queues: Queues, fs: seq<Frame>, ctxs: seq<Context>, i: nat)
    requires |fs| == |ctxs| && Bounded(queues) && i < |fs|
    ensures var u, r := Receiver(fs[i]), EnqueueAll(queues, fs, ctxs).results;
      Comes(r[i], u in queues, if u in queues then |queues[u]| + |AcceptedFor(fs[..i], r[..i], u)| else 0, ctxs[i])
  {
    hide EnqueueAll, Receiver, AcceptedFor, Bounded, Comes;
    var k := |fs| - 1;
    BatchPrefix(queues, fs, ctxs);
    if i < k {
      EachComes(queues, fs[..k], ctxs[..k], i);
      assert fs[..k][..i] == fs[..i];
      assert EnqueueAll(queues, fs[..k], ctxs[..k]).results[..i] == EnqueueAll(queues, fs, ctxs).results[..i];
    } else {
      LastComes(queues, fs, ctxs);
    }
  }

  /** A request of acknowledgements: each goes to the one who sent the message. His queue grows by those
      accepted, in the order of the request, and what becomes of each depends on his connection alone. */
  lemma {:induction false} AcksReachSenders(queues: Queues, acks: seq<Ack>, ctxs: seq<Context>, u: Uid, i: nat)
    requires |acks| == |ctxs| && Bounded(queues)
    ensures var r := EnqueueAll(queues, AckFrames(acks), ctxs);
      && r.queues.Keys == queues.Keys
      && (u in queues ==> r.queues[u] == queues[u] + AcksFrom(acks, r.results, u))
      && (i < |acks| ==>
            var from := acks[i].fromUid;
            Comes(r.results[i], from in queues,
                  if from in queues then |queues[from]| + |AcksFrom(acks[..i], r.results[..i], from)| else 0, ctxs[i]))
  {
    hide EnqueueAll, AcceptedFor, Comes, Bounded, AcksFrom;
    var r := EnqueueAll(queues, AckFrames(acks), ctxs);
    BatchQueues(queues, AckFrames(acks), ctxs);
    AcksAreAccepted(acks, r.results, u);
    if i < |acks| {
      EachComes(queues, AckFrames(acks), ctxs, i);
      assert AckFrames(acks)[..i] == AckFrames(acks[..i]);
      AcksAreAccepted(acks[..i], r.results[..i], acks[i].fromUid);
    }
  }

  /** A request of messages: each goes to the one it is for. */
  lemma {:induction false} MessagesReachReceivers(queues: Queues, pushes: seq<Push>, ctxs: seq<Context>, u: Uid, i: nat)
    requires |pushes| == |ctxs| && Bounded(queues)
    ensures var r := EnqueueAll(queues, MsgFrames(pushes), ctxs);
      && r.queues.Keys == queues.Keys
      && (u in queues ==> r.queues[u] == queues[u] + MessagesTo(pushes, r.results, u))
      && (i < |pushes| ==>
            var to := pushes[i].toUid;
            Comes(r.results[i], to in queues,
                  if to in queues then |queues[to]| + |MessagesTo(pushes[..i], r.results[..i], to)| else 0, ctxs[i]))
  {
    hide EnqueueAll, AcceptedFor, Comes, Bounded, MessagesTo;
    var r := EnqueueAll(queues, MsgFrames(pushes), ctxs);
    BatchQueues(queues, MsgFrames(pushes), ctxs);
    MessagesAreAccepted(pushes, r.results, u);
    if i < |pushes| {
      EachComes(queues, MsgFrames(pushes), ctxs, i);
      assert MsgFrames(pushes)[..i] == MsgFrames(pushes[..i]);
      MessagesAreAccepted(pushes[..i], r.results[..i], pushes[i].toUid);
    }
  }

  lemma {:induction false} AcksFromMeans(acks: seq<Ack>, results: seq<Result>, u: Uid, f: Frame)
    requires |acks| == |results|
    ensures f in AcksFrom(acks, results, u) <==>
      exists i :: 0 <= i < |acks| && acks[i].fromUid == u && results[i] == Delivered && f == AckFrame(acks[i])
  {
    if acks != [] {
      var k := |acks| - 1;
      AcksFromMeans(acks[..k], results[..k], u, f);
      if f in AcksFrom(acks[..k], results[..k], u) {
        var i :| 0 <= i < k && acks[..k][i].fromUid == u && results[..k][i] == Delivered && f == AckFrame(acks[..k][i]);
        assert acks[i].fromUid == u && results[i] == Delivered && f == AckFrame(acks[i]);
      }
      if i :| 0 <= i < k && acks[i].fromUid == u && results[i] == Delivered && f == AckFrame(acks[i]) {
        assert acks[..k][i].fromUid == u && results[..k][i] == Delivered && f == AckFrame(acks[..k][i]);
      }
    }
  }

  // ---------------------------------------------------------------- counters

  datatype Stats = Stats(
    messageEnqueued: nat,
    ackEnqueued: nat,
    sendFull: nat,
    notFound: nat,
    marshalError: nat,
    ctxCanceled: nat,
    messageBatches: nat,
    ackBatches: nat)

  const NO_STATS := Stats(0, 0, 0, 0, 0, 0, 0, 0)

  function Tally(s: Stats, f: Frame, r: Result): Stats {
    match r
    case Delivered =>
      if f.MsgFrame? then s.(messageEnqueued := s.messageEnqueued + 1) else s.(ackEnqueued := s.ackEnqueued + 1)
    case NotFound => s.(notFound := s.notFound + 1)
    case MarshalError => s.(marshalError := s.marshalError + 1)
    case SendFull => s.(sendFull := s.sendFull + 1)
    case Canceled => s.(ctxCanceled := s.ctxCanceled + 1)
  }

  function TallyAll(s: Stats, fs: seq<Frame>, results: seq<Result>): Stats
    requires |fs| == |results|
  {
    if fs == [] then s
    else
      var k := |fs| - 1;
      Tally(TallyAll(s, fs[..k], results[..k]), fs[k], results[k])
  }

  function Handled(s: Stats): nat {
    s.messageEnqueued + s.ackEnqueued + s.sendFull + s.notFound + s.marshalError + s.ctxCanceled
  }

  function CountOf(results: seq<Result>, x: Result): nat {
    if results == [] then 0
    else CountOf(results[..|results| - 1], x) + if results[|results| - 1] == x then 1 else 0
  }

  /** Every frame is counted exactly once, under what happened to it, and an accepted one under its
      kind. */
  lemma {:induction false} TalliesAddUp(s: Stats, fs: seq<Frame>, results: seq<Result>)
    requires |fs| == |results|
    ensures var t := TallyAll(s, fs, results);
      && Handled(t) == Handled(s) + |fs|
      && t.messageEnqueued + t.ackEnqueued == s.messageEnqueued + s.ackEnqueued + CountOf(results, Delivered)
      && t.sendFull == s.sendFull + CountOf(results, SendFull)
      && t.notFound == s.notFound + CountOf(results, NotFound)
      && t.marshalError == s.marshalError + CountOf(results, MarshalError)
      && t.ctxCanceled == s.ctxCanceled + CountOf(results, Canceled)
      && t.messageBatches == s.messageBatches && t.ackBatches == s.ackBatches
      && ((forall f :: f in fs ==> f.AckFrame?) ==> t.messageEnqueued == s.messageEnqueued)
      && ((forall f :: f in fs ==> f.MsgFrame?) ==> t.ackEnqueued == s.ackEnqueued)
  {
    hide Tally, CountOf;
    if fs == [] {
      NothingCounted();
    } else {
      var k := |fs| - 1;
      TalliesAddUp(s, fs[..k], results[..k]);
      TallyOne(TallyAll(s, fs[..k], results[..k]), fs[k], results[k]);
      forall x {
        CountSnoc(results, x);
      }
    }
  }

  lemma NothingCounted()
    ensures forall x :: CountOf([], x) == 0
  {
  }

  lemma {:induction false} CountSnoc(results: seq<Result>, x: Result)
    requires results != []
    ensures CountOf(results, x) == CountOf(results[..|results| - 1], x) + if results[|results| - 1] == x then 1 else 0
  {
  }

  lemma TallyOne(s: Stats, f: Frame, r: Result)
    ensures var t := Tally(s, f, r);
      && Handled(t) == Handled(s) + 1
      && t.messageEnqueued + t.ackEnqueued == s.messageEnqueued + s.ackEnqueued + (if r == Delivered then 1 else 0)
      && t.sendFull == s.sendFull + (if r == SendFull then 1 else 0)
      && t.notFound == s.notFound + (if r == NotFound then 1 else 0)
      && t.marshalError == s.marshalError + (if r == MarshalError then 1 else 0)
      && t.ctxCanceled == s.ctxCanceled + (if r == Canceled then 1 else 0)
      && t.messageBatches == s.messageBatches && t.ackBatches == s.ackBatches
      && (f.AckFrame? ==> t.messageEnqueued == s.messageEnqueued)
      && (f.MsgFrame? ==> t.ackEnqueued == s.ackEnqueued)
  {
  }

  // ---------------------------------------------------------------- the server object

  /** The queue of one connection; the writer on the other side takes frames out. */
  class Connection {
    const uid: Uid
    var send: seq<Frame>

    constructor (uid: Uid)
      ensures this.uid == uid && send == []
    {
      this.uid := uid;
      send := [];
    }

    /** The non-blocking select on the Send channel. */
    method TrySend(f: Frame, ctx: Context) returns (r: Result)
      requires |send| <= SEND_CAPACITY && ctx != Unencodable
      modifies this
      ensures r == Select(|old(send)|, ctx)
      ensures send == if r == Delivered then old(send) + [f] else old(send)
      ensures |send| <= SEND_CAPACITY
    {
      if |send| < SEND_CAPACITY && (ctx == Live || ctx.sendFirst) {
        send := send + [f];
        return Delivered;
      }
      if ctx.Done? {
        return Canceled;
      }
      return SendFull;
    }
  }

  lemma {:induction false} NoneYet(queues: Queues, fs: seq<Frame>, ctxs: seq<Context>, s: Stats)
    ensures EnqueueAll(queues, fs[..0], ctxs[..0]) == Batch(queues, []) && TallyAll(s, fs[..0], []) == s
  {
  }

  lemma {:induction false} OneFrameMore(queues: Queues, fs: seq<Frame>, ctxs: seq<Context>, i: nat, s: Stats,
                                        results: seq<Result>)
    requires i < |fs| == |ctxs| && |results| == i
    ensures var b := EnqueueAll(queues, fs[..i], ctxs[..i]);
      EnqueueAll(queues, fs[..i + 1], ctxs[..i + 1]) ==
        Batch(Enqueue(b.queues, fs[i], ctxs[i]), b.results + [Answer(b.queues, Receiver(fs[i]), ctxs[i])])
    ensures forall r :: TallyAll(s, fs[..i + 1], results + [r]) == Tally(TallyAll(s, fs[..i], results), fs[i], r)
  {
    hide Tally, Answer, Enqueue;
    assert fs[..i + 1][..i] == fs[..i] && ctxs[..i + 1][..i] == ctxs[..i];
    forall r
      ensures TallyAll(s, fs[..i + 1], results + [r]) == Tally(TallyAll(s, fs[..i], results), fs[i], r)
    {
      assert (results + [r])[..i] == results;
    }
  }

  lemma EnqueueCases(queues: Queues, f: Frame, ctx: Context)
    ensures var r, q, u := Answer(queues, Receiver(f), ctx), Enqueue(queues, f, ctx), Receiver(f);
      if u !in queues then r == NotFound && q == queues
      else if ctx == Unencodable then r == MarshalError && q == queues
      else r == Select(|queues[u]|, ctx) && q == if r == Delivered then queues[u := queues[u] + [f]] else queues
  {
  }

  class Server {
    var connections: map<Uid, Connection>
    var stats: Stats

    ghost predicate Valid()
      reads this`connections, connections.Values
    {
      && (forall u :: u in connections ==> connections[u].uid == u && |connections[u].send| <= SEND_CAPACITY)
      && (forall u, v :: u in connections && v in connections && u != v ==> connections[u] != connections[v])
    }

    ghost function Contents(): Queues
      reads this`connections, connections.Values
    {
      map u | u in connections :: connections[u].send
    }

    constructor ()
      ensures Valid() && connections == map[] && stats == NO_STATS
    {
      connections, stats := map[], NO_STATS;
    }

    /** Look the receiver up and queue the frame without waiting. */
    method EnqueueFrame(f: Frame, ctx: Context) returns (r: Result)
      requires Valid()
      modifies this`stats, connections.Values
      ensures Valid()
      ensures r == Answer(old(Contents()), Receiver(f), ctx) && Contents() == Enqueue(old(Contents()), f, ctx)
      ensures stats == Tally(old(stats), f, r)
    {
      EnqueueCases(Contents(), f, ctx);
      hide Tally, Select, Answer, Enqueue, Receiver;
      if Receiver(f) !in connections {
        stats := Tally(stats, f, NotFound);
        return NotFound;
      }
      if ctx == Unencodable {
        stats := Tally(stats, f, MarshalError);
        return MarshalError;
      }
      var client := connections[Receiver(f)];
      assert client in connections.Values;
      r := client.TrySend(f, ctx);
      stats := Tally(stats, f, r);
      forall u | u in connections && u != Receiver(f)
        ensures connections[u].send == old(connections[u].send)
      {
        assert connections[u] in connections.Values;
      }
      assert Contents() ==
        if r == Delivered then old(Contents())[Receiver(f) := old(client.send) + [f]] else old(Contents());
    }

    /** BatchRelayMessages and BatchRelayAcks: one result per item, in order. */
    method RelayBatch(fs: seq<Frame>, ctxs: seq<Context>, acks: bool) returns (results: seq<Result>)
      requires Valid() && |fs| == |ctxs| && forall f :: f in fs ==> f.AckFrame? == acks
      modifies this`stats, connections.Values
      ensures Valid()
      ensures var b := EnqueueAll(old(Contents()), fs, ctxs); results == b.results && Contents() == b.queues
      ensures var counted := if acks then old(stats).(ackBatches := old(stats).ackBatches + 1)
                             else old(stats).(messageBatches := old(stats).messageBatches + 1);
        stats == TallyAll(counted, fs, results)
    {
      hide Tally, Answer, Enqueue, Valid, Contents, EnqueueAll, TallyAll;
      if acks {
        stats := stats.(ackBatches := stats.ackBatches + 1);
      } else {
        stats := stats.(messageBatches := stats.messageBatches + 1);
      }
      ghost var counted := stats;
      results := [];
      NoneYet(Contents(), fs, ctxs, counted);
      for i := 0 to |fs|
        invariant Valid() && |results| == i
        invariant results == EnqueueAll(old(Contents()), fs[..i], ctxs[..i]).results
        invariant Contents() == EnqueueAll(old(Contents()), fs[..i], ctxs[..i]).queues
        invariant stats == TallyAll(counted, fs[..i], results)
      {
        OneFrameMore(old(Contents()), fs, ctxs, i, counted, results);
        var r := EnqueueFrame(fs[i], ctxs[i]);
        results := results + [r];
      }
      assert fs[..|fs|] == fs && ctxs[..|fs|] == ctxs;
    }
  }
}
