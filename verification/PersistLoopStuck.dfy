// The one frame that is neither stored nor skipped: it holds the offsets back for ever.
module PersistLoopStuck {
  import opened Wrappers
  import opened Chat
  import opened Tables
  import opened PersistSpec
  import opened PersistInvariants
  import opened BatchSpec
  import opened GroupInvariants
  import opened Delivered
  import opened PersistLoop
  import opened PersistLoopSafety

  /** What the worker has got past holds no stuck frame. */
  predicate PastUnstuck(at: Db, s: Loop) {
    match s.phase
    case Opening(_, msgs) => |msgs| <= |SinglesOf(s)| && NoneStuck(at, SinglesOf(s)[..|msgs|])
    case Storing(_, _) => NoneStuck(at, SinglesOf(s))
    case Retrying(_, _, _) => NoneStuck(at, SinglesOf(s))
    case Mixed(_) => NoneStuck(at, SinglesOf(s))
    case Flushing(failed) => failed || NoneStuck(at, SinglesOf(s))
    case Committing => NoneStuck(at, SinglesOf(s))
    case _ => true
  }

  /** The stuck frame at offset o is not committed. */
  ghost predicate Held(at: Db, s: Loop, o: nat) {
    && s.committed <= o < |s.log| && s.log[o].Some? && Stuck(at, s.log[o].value)
    && at.users <= s.db.users && PastUnstuck(at, s)
  }

  lemma StuckIsEarly(base: Db, db: Db, m: Msg)
    requires SingleInv(base) && SingleInv(db) && Stuck(db, m)
    ensures IsEarly(base, m)
  {
    assert CleanUid(m.fromUid);
  }

  lemma StuckFaults(at: Db, s: Loop, m: Msg)
    requires LoopInv(s) && m in SinglesOf(s) && Fresh(s.db, m) && Stuck(at, m) && at.users <= s.db.users
    requires s.phase.Opening?
    ensures IsEarly(s.phase.base, m) && Handle(s.db, m).status == Fault
  {
    BatchFromServer(s, m);
    StuckIsEarly(s.phase.base, s.db, m);
    hide SeqInv, SingleInv, GroupInv, Tidy, PushInv, LogInv, Handle, IsEarly;
    HandleKeepsInv(s.db, m);
  }

  lemma OpenPasses(at: Db, s: Loop)
    requires LoopInv(s) && Enabled(s, Open) && PastUnstuck(at, s) && at.users <= s.db.users
    ensures PastUnstuck(at, Next(s, Open))
  {
    hide LoopInv, Fresh, Handle, IsEarly, Prepare, Singles, Stuck;
    var Opening(base, msgs) := s.phase;
    var ms := SinglesOf(s);
    if |msgs| >= |ms| {
      assert ms[..|msgs|] == ms;
    } else {
      var m := ms[|msgs|];
      assert ms[..|msgs| + 1] == ms[..|msgs|] + [m];
      if Stuck(at, m) {
        StuckFaults(at, s, m);
      }
    }
  }

  lemma SameIsStuck(at: Db, a: Option<Msg>, b: Option<Msg>)
    requires SameFrame(a, b) && a.Some?
    ensures Stuck(at, a.value) <==> Stuck(at, Normalise(b.value))
    ensures Stuck(at, a.value) ==> Normalise(b.value).kind == Single
  {
  }

  lemma BatchIsUnstuck(at: Db, s: Loop, i: nat)
    requires LogInv(s) && NoneStuck(at, SinglesOf(s)) && i < |s.frames| && s.log[s.committed + i].Some?
    ensures !Stuck(at, s.log[s.committed + i].value)
  {
    hide FromServer, Singles, BatchSpec.Others, Stuck;
    SplitMeans(s.frames);
    SameIsStuck(at, s.log[s.committed + i], s.frames[i]);
  }

  lemma CommitHolds(at: Db, s: Loop, o: nat)
    requires LoopInv(s) && Enabled(s, Commit) && Held(at, s, o)
    ensures Held(at, Next(s, Commit), o)
  {
    hide AllInv, Tidy, Later, PushInv, Singles, BatchSpec.Others, Stuck, NoneStuck, FromServer;
    if o < s.committed + |s.frames| {
      BatchIsUnstuck(at, s, o - s.committed);
    }
  }

  lemma MovePasses(at: Db, s: Loop, move: Move)
    requires Enabled(s, move) && PastUnstuck(at, s) && move != Open
    ensures PastUnstuck(at, Next(s, move))
  {
    hide Handle, FinishBatch, Rest, Singles, BatchSpec.Others, ChatRuns.Perform, Stuck, SoundStep, BatchSound, Fresh,
         FromServer, IdFits;
  }

  lemma LaterHasUsers(a: Db, b: Db)
    requires Later(a, b)
    ensures a.users <= b.users
  {
  }

  lemma MoveHolds(at: Db, s: Loop, move: Move, o: nat)
    requires LoopInv(s) && Enabled(s, move) && Held(at, s, o)
    ensures Held(at, Next(s, move), o)
  {
    if move == Commit {
      hide *;
      CommitHolds(at, s, o);
    } else {
      hide LoopInv, Enabled, Next, Later, PastUnstuck, Stuck;
      MoveKeepsInv(s, move);
      LaterHasUsers(s.db, Next(s, move).db);
      LogGrows(s, move);
      if move == Open {
        OpenPasses(at, s);
      } else {
        MovePasses(at, s, move);
      }
    }
  }

  lemma {:induction false} RunHolds(s: Loop, moves: seq<Move>, o: nat)
    requires LoopInv(s) && s.phase.Idle? && Possible(s, moves)
    requires s.committed <= o < |s.log| && s.log[o].Some? && Stuck(s.db, s.log[o].value)
    ensures Held(s.db, RunLoop(s, moves), o)
  {
    hide LoopInv, Enabled, Next, Stuck;
    if moves != [] {
      var k := |moves| - 1;
      RunHolds(s, moves[..k], o);
      RunKeepsLoopInv(s, moves[..k]);
      MoveHolds(s.db, RunLoop(s, moves[..k]), moves[k], o);
    }
  }

  /** A frame by which a user writes to himself without naming a conversation is never committed, in no
      run, and so nothing behind it ever is: each batch with it is fetched again. */
  lemma {:induction false} StuckIsNeverCommitted(s: Loop, moves: seq<Move>, o: nat)
    requires LoopInv(s) && s.phase.Idle? && Possible(s, moves)
    requires s.committed <= o < |s.log| && s.log[o].Some? && Stuck(s.db, s.log[o].value)
    ensures RunLoop(s, moves).committed <= o
  {
    hide LoopInv, Possible, RunLoop, Stuck, PastUnstuck;
    RunHolds(s, moves, o);
  }
}
