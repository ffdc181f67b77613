// The persist worker as a process that can die anywhere: it fetches a batch from the chat.msg log,
// runs one transaction after the other, flushes the pushes and commits the offsets, while chat
// servers append frames and other processes change the same tables.
module PersistLoop {
  import opened Wrappers
  import opened Chat
  import opened Tables
  import opened PersistSpec
  import opened PersistInvariants
  import opened BatchSpec
  import opened ChatRuns
  import opened Delivered

  /** Where the worker is between two transactions. `base` is what the one query for the known pairs
      saw; `msgs` are the single-chat frames as far as they have been filled in. */
  datatype Phase =
    | Idle
    | Fetched
    | Opening(base: Db, msgs: seq<Msg>)
    | Storing(base: Db, msgs: seq<Msg>)
    | Retrying(base: Db, msgs: seq<Msg>, k: nat)
    | Mixed(k: nat)
    | Flushing(failed: bool)
    | Committing

  /** `log` is the partition of chat.msg, `committed` the consumer group's offset in it, `topic` what
      this consumer has written to chat.push. `frames` is the batch in work, with the random values
      of this delivery. */
  datatype Loop = Loop(
    log: seq<Option<Msg>>,
    committed: nat,
    db: Db,
    topic: seq<Push>,
    frames: seq<Option<Msg>>,
    pending: seq<Push>,
    phase: Phase)

  datatype Move =
    | Elsewhere(step: Step)          // a transaction of another process
    | BulkElsewhere(rest: seq<Msg>)  // the bulk transaction of another worker
    | Produce(frame: Option<Msg>)
    | Fetch(frames: seq<Option<Msg>>)
    | Resolve
    | Open
    | Store
    | Retry
    | HandleOther
    | Flush
    | Commit
    | Fail                           // an outage: the next transaction returns an error
    | Crash(written: seq<Push>)      // the process dies; a flush in progress may have got this far

  const BATCH_MAX := 128

  function SinglesOf(s: Loop): seq<Msg> {
    Singles(s.frames)
  }

  function OthersOf(s: Loop): seq<Msg> {
    BatchSpec.Others(s.frames)
  }

  /** A dead worker is restarted and goes on from the committed offset. */
  function Restarted(s: Loop): Loop {
    s.(frames := [], pending := [], phase := Idle)
  }

  function AfterFrame(s: Loop, h: Handled, next: Phase): Loop {
    s.(db := h.db, pending := s.pending + h.pushes, phase := if h.status == Fault then Flushing(true) else next)
  }

  function Next(s: Loop, move: Move): Loop {
    match move
    case Elsewhere(step) => s.(db := Perform(s.db, step))
    case BulkElsewhere(rest) => s.(db := FinishBatch(s.db, Firsts(rest)).db)
    case Produce(frame) => s.(log := s.log + [frame])
    case Fetch(frames) => s.(frames := frames, phase := Fetched)
    case Resolve => s.(phase := Opening(s.db, []))
    case Open =>
      (match s.phase
       case Opening(base, msgs) =>
         if |msgs| >= |SinglesOf(s)| then s.(phase := Storing(base, msgs))
         else
           var m := SinglesOf(s)[|msgs|];
           if IsEarly(base, m) then
             var h := Handle(s.db, m);
             AfterFrame(s, h, Opening(base, msgs + [h.msg]))
           else s.(phase := Opening(base, msgs + [Prepare(base, m)]))
       case _ => s)
    case Store =>
      (match s.phase
       case Storing(base, msgs) =>
         var f := FinishBatch(s.db, Firsts(Rest(base, SinglesOf(s))));
         s.(db := f.db, pending := s.pending + f.pushes,
            phase := match f.status
                     case Done => Mixed(0)
                     case Fallback => Retrying(base, msgs, 0)
                     case Failed => Flushing(true))
       case _ => s)
    case Retry =>
      (match s.phase
       case Retrying(base, msgs, k) =>
         if k >= |msgs| then s.(phase := Mixed(0))
         else AfterFrame(s, Handle(s.db, msgs[k]), Retrying(base, msgs, k + 1))
       case _ => s)
    case HandleOther =>
      (match s.phase
       case Mixed(k) =>
         if k >= |OthersOf(s)| then s.(phase := Flushing(false))
         else AfterFrame(s, Handle(s.db, OthersOf(s)[k]), Mixed(k + 1))
       case _ => s)
    case Flush =>
      var t := s.(topic := s.topic + s.pending, pending := []);
      if s.phase == Flushing(false) then t.(phase := Committing) else Restarted(t)
    case Commit => s.(committed := s.committed + |s.frames|, frames := [], phase := Idle)
    case Fail => s.(phase := Flushing(true))
    case Crash(written) => Restarted(s.(topic := s.topic + written))
  }

  // ---------------------------------------------------------------- which moves happen

  /** The same frame with other random values. */
  predicate SameFrame(a: Option<Msg>, b: Option<Msg>) {
    a.Some? == b.Some? && (a.Some? ==> b.value == a.value.(newConv := b.value.newConv, draw := b.value.draw))
  }

  /** What the chat servers and the group service put on chat.msg: frames without an id, from a known
      sender but with whatever conversation the client has named, and event frames for a row already
      written. */
  predicate FromServer(db: Db, m: Msg) {
    if m.kind == SystemEvent then Envelope(db, m)
    else m.id == NoId && '|' !in m.fromUid
  }

  ghost predicate SoundStep(db: Db, step: Step) {
    Lawful(db, step) &&
    match step
    case Frame(m) => Sound(db, Normalise(m))
    case Batch(_) => false
    case Create(g, owner, _, _, _, _) => '|' !in g && '|' !in owner
    case Govern(g, operator, _, _, _) => '|' !in g && '|' !in operator
    case Leave(g, u, _, _) => '|' !in g && '|' !in u
    case _ => true
  }

  ghost predicate Enabled(s: Loop, move: Move) {
    match move
    case Elsewhere(step) => SoundStep(s.db, step)
    case BulkElsewhere(rest) => BatchSound(s.db, rest)
    case Produce(frame) => frame.Some? ==> FromServer(s.db, Normalise(frame.value))
    case Fetch(frames) =>
      && s.phase.Idle? && 0 < |frames| <= BATCH_MAX && s.committed + |frames| <= |s.log|
      && forall i :: 0 <= i < |frames| ==> SameFrame(s.log[s.committed + i], frames[i])
    case Resolve => s.phase.Fetched?
    case Open =>
      && s.phase.Opening?
      && (|s.phase.msgs| < |SinglesOf(s)| ==> Fresh(s.db, SinglesOf(s)[|s.phase.msgs|]))
    case Store =>
      && s.phase.Storing?
      && forall m :: m in Rest(s.phase.base, SinglesOf(s)) ==> (m.id.Drawn? ==> IdFits(s.db, m))
    case Retry => s.phase.Retrying? && (s.phase.k < |s.phase.msgs| ==> Fresh(s.db, s.phase.msgs[s.phase.k]))
    case HandleOther => s.phase.Mixed? && (s.phase.k < |OthersOf(s)| ==> Fresh(s.db, OthersOf(s)[s.phase.k]))
    case Flush => s.phase.Flushing?
    case Commit => s.phase.Committing?
    case Fail => s.phase.Fetched? || s.phase.Opening? || s.phase.Storing? || s.phase.Retrying? || s.phase.Mixed?
    case Crash(written) => written == [] || (s.phase.Flushing? && forall p :: p in written ==> p in s.pending)
  }

  function RunLoop(s: Loop, moves: seq<Move>): Loop {
    if moves == [] then s else Next(RunLoop(s, moves[..|moves| - 1]), moves[|moves| - 1])
  }

  ghost predicate Possible(s: Loop, moves: seq<Move>) {
    moves == [] ||
    (Possible(s, moves[..|moves| - 1]) && Enabled(RunLoop(s, moves[..|moves| - 1]), moves[|moves| - 1]))
  }
}
