// The id generator: 41 bits of milliseconds, 3 bits of worker, 10 bits of sequence.
module Snowflake {
  import opened Wrappers

  const MAX_WORKER: int := 7
  const MAX_SEQ: int := 1023
  const EPOCH: int := 1_704_038_400_000

  datatype State = State(worker: int, lastMs: int, seqNo: int)

  predicate Valid(s: State) {
    0 <= s.worker <= MAX_WORKER && 0 <= s.seqNo <= MAX_SEQ
  }

  function Pack(ms: int, worker: int, seqNo: int): int {
    (ms - EPOCH) * 8192 + worker * 1024 + seqNo
  }

  function LastId(s: State): int {
    Pack(s.lastMs, s.worker, s.seqNo)
  }

  // ---------------------------------------------------------------- the packed fields

  /** The shifts and ors of the program are that sum: the fields do not overlap, and the result keeps
      the sign bit of a 64-bit integer clear. */
  lemma FieldsDoNotOverlap(t: bv64, w: bv64, s: bv64)
    requires t < 0x200_0000_0000 && w <= 7 && s <= 1023
    ensures ((t << 13) | (w << 10)) | s == t * 8192 + w * 1024 + s
    ensures ((t << 13) | (w << 10)) | s < 0x8000_0000_0000_0000
  {
  }

  /** For 2 to the 41st milliseconds, about 69 years, from 2024-01-01 00:00 Beijing time ids are positive
      numbers of 54 bits, well within the signed 64-bit ones, and use all of these. */
  lemma IdFitsInt64(ms: int, worker: int, seqNo: int)
    requires 1_704_038_400_000 <= ms < 1_704_038_400_000 + 0x200_0000_0000 && 0 <= worker <= 7 && 0 <= seqNo <= 1023
    ensures 0 <= Pack(ms, worker, seqNo) < 0x40_0000_0000_0000 < 0x8000_0000_0000_0000
    ensures Pack(1_704_038_400_000, 0, 0) == 0
    ensures Pack(1_704_038_400_000 + 0x1ff_ffff_ffff, 7, 1023) == 0x40_0000_0000_0000 - 1
  {
  }

  /** An id gives its three fields back, and ids are ordered like them. */
  lemma PackInjective(a: int, v: int, r: int, b: int, w: int, s: int)
    requires 0 <= v <= 7 && 0 <= r <= 1023 && 0 <= w <= 7 && 0 <= s <= 1023
    ensures Pack(a, v, r) == Pack(b, w, s) <==> a == b && v == w && r == s
    ensures v == w ==> (Pack(a, v, r) < Pack(b, w, s) <==> a < b || (a == b && r < s))
  {
    var x, y := v * 1024 + r, w * 1024 + s;
    assert 0 <= x < 8192 && 0 <= y < 8192;
    if a < b {
      assert (a - EPOCH) * 8192 + 8192 <= (b - EPOCH) * 8192;
    } else if b < a {
      assert (b - EPOCH) * 8192 + 8192 <= (a - EPOCH) * 8192;
    }
  }

  // ---------------------------------------------------------------- one call

  /** What a call does while the clock gives the listed readings; Waiting means that it has not
      returned yet when they are used up. */
  datatype Outcome = Id(value: int) | Backward | Waiting

  datatype Call = Call(state: State, outcome: Outcome, left: seq<int>)

  datatype Reached = Now(ms: int, left: seq<int>) | GaveUp(left: seq<int>) | Unfinished

  /** Waiting for the clock to catch up with `last`. */
  function CatchUp(last: int, readings: seq<int>): Reached
    decreases |readings|
  {
    if |readings| < 1 then Unfinished
    else if readings[0] >= last then Recheck(last, readings[1..])
    else if |readings| < 2 then Unfinished
    else if last - readings[1] > 2 then GaveUp(readings[2..])
    else if |readings| < 3 then Unfinished
    else if last - readings[2] <= 0 then Recheck(last, readings[3..])
    else CatchUp(last, readings[3..])
  }

  function Recheck(last: int, readings: seq<int>): Reached {
    if readings == [] then Unfinished
    else if readings[0] < last then GaveUp(readings[1..])
    else Now(readings[0], readings[1..])
  }

  /** Waiting for the next millisecond. */
  function NextMs(last: int, readings: seq<int>): Reached {
    if readings == [] then Unfinished
    else if readings[0] <= last then NextMs(last, readings[1..])
    else Now(readings[0], readings[1..])
  }

  function Stamp(s: State, ms: int, seqNo: int, left: seq<int>): Call {
    Call(State(s.worker, ms, seqNo), Id(Pack(ms, s.worker, seqNo)), left)
  }

  function Generate(s: State, readings: seq<int>): Call {
    if readings == [] then Call(s, Waiting, [])
    else
      var now, rest := readings[0], readings[1..];
      if now < s.lastMs then
        match CatchUp(s.lastMs, rest)
        case Now(ms, left) => Stamp(s, ms, s.seqNo, left)
        case GaveUp(left) => Call(s, Backward, left)
        case Unfinished => Call(s, Waiting, [])
      else if now == s.lastMs then
        var next := (s.seqNo + 1) % 1024;
        if next != 0 then Stamp(s, now, next, rest)
        else
          match NextMs(s.lastMs, rest)
          case Now(ms, left) => Stamp(s, ms, 0, left)
          case _ => Call(s.(seqNo := 0), Waiting, [])
      else Stamp(s, now, 0, rest)
  }

  lemma {:induction false} CatchUpReaches(last: int, readings: seq<int>)
    ensures CatchUp(last, readings).Now? ==> CatchUp(last, readings).ms >= last
    ensures CatchUp(last, readings).Now? ==> CatchUp(last, readings).ms in readings
    decreases |readings|
  {
    if |readings| >= 3 && readings[0] < last && last - readings[1] <= 2 && last - readings[2] > 0 {
      CatchUpReaches(last, readings[3..]);
    }
  }

  lemma {:induction false} NextMsReaches(last: int, readings: seq<int>)
    ensures NextMs(last, readings).Now? ==> NextMs(last, readings).ms > last
  {
    if readings != [] && readings[0] <= last {
      NextMsReaches(last, readings[1..]);
    }
  }

  /** A reading of the clock stands in the list, and those before it are this late or later. */
  predicate FirstAfter(readings: seq<int>, i: nat, last: int) {
    i < |readings| && readings[i] > last && forall k :: 0 <= k < i ==> readings[k] <= last
  }

  lemma {:induction false} NextMsIsFirst(last: int, readings: seq<int>)
    ensures match NextMs(last, readings)
      case Now(ms, left) =>
        exists i: nat :: FirstAfter(readings, i, last) && ms == readings[i] && left == readings[i + 1..]
      case GaveUp(_) => false
      case Unfinished => forall k :: 0 <= k < |readings| ==> readings[k] <= last
  {
    if readings == [] {
    } else if readings[0] <= last {
      NextMsIsFirst(last, readings[1..]);
      match NextMs(last, readings[1..]) {
        case Now(ms, left) =>
          var i: nat :| FirstAfter(readings[1..], i, last) && ms == readings[1..][i] && left == readings[1..][i + 1..];
          assert FirstAfter(readings, i + 1, last) && ms == readings[i + 1] && left == readings[i + 2..];
        case Unfinished =>
          forall k | 0 <= k < |readings|
            ensures readings[k] <= last
          {
            if k > 0 {
              assert readings[k] == readings[1..][k - 1];
            }
          }
        case _ =>
      }
    } else {
      assert FirstAfter(readings, 0, last);
    }
  }

  lemma {:induction false} CatchUpGivesUp(last: int, readings: seq<int>)
    ensures CatchUp(last, readings).GaveUp? ==> exists i :: 0 <= i < |readings| && readings[i] < last
    decreases |readings|
  {
    if |readings| >= 3 && readings[0] < last && last - readings[1] <= 2 && last - readings[2] > 0 {
      CatchUpGivesUp(last, readings[3..]);
      if CatchUp(last, readings[3..]).GaveUp? {
        var i :| 0 <= i < |readings[3..]| && readings[3..][i] < last;
        assert readings[i + 3] < last;
      }
    } else if |readings| >= 2 && readings[0] >= last && readings[1] < last {
      assert readings[1..][0] == readings[1];
    } else if |readings| >= 4 && readings[2] >= last && readings[3] < last {
      assert readings[3..][0] == readings[3];
    }
  }

  /** What an id is made of. The clock ahead of the last id: its reading, and a sequence that starts
      again. The same millisecond: the next number of the sequence or, after the 1024th id, the first
      reading that is later. The clock behind: the sequence as it was, and a reading that has caught up.
      No id is returned only when the clock was behind, at first and again. */
  lemma IdIsOfReading(s: State, readings: seq<int>)
    requires Valid(s) && readings != []
    ensures var c, now := Generate(s, readings), readings[0];
      && (now > s.lastMs ==> c == Call(State(s.worker, now, 0), Id(Pack(now, s.worker, 0)), readings[1..]))
      && (now == s.lastMs && s.seqNo < 1023 ==>
            c == Call(State(s.worker, now, s.seqNo + 1), Id(Pack(now, s.worker, s.seqNo + 1)), readings[1..]))
      && (now == s.lastMs && s.seqNo == 1023 && c.outcome.Id? ==>
            exists i: nat :: FirstAfter(readings, i, s.lastMs) && c.state == State(s.worker, readings[i], 0))
      && (now < s.lastMs && c.outcome.Id? ==>
            c.state.seqNo == s.seqNo && c.state.lastMs in readings && c.state.lastMs >= s.lastMs)
      && (c.outcome == Backward ==>
            c.state == s && now < s.lastMs && exists i :: 0 < i < |readings| && readings[i] < s.lastMs)
  {
    var now, rest := readings[0], readings[1..];
    if now == s.lastMs {
      NextMsIsFirst(s.lastMs, rest);
      if NextMs(s.lastMs, rest).Now? {
        var i: nat :| FirstAfter(rest, i, s.lastMs) && NextMs(s.lastMs, rest).ms == rest[i];
        forall k | 0 <= k < i + 1
          ensures readings[k] <= s.lastMs
        {
          if k > 0 {
            assert readings[k] == rest[k - 1];
          }
        }
        assert FirstAfter(readings, i + 1, s.lastMs) && readings[i + 1] == rest[i];
      }
    }
    if now < s.lastMs {
      CatchUpReaches(s.lastMs, rest);
      CatchUpGivesUp(s.lastMs, rest);
      if CatchUp(s.lastMs, rest).GaveUp? {
        var i :| 0 <= i < |rest| && rest[i] < s.lastMs;
        assert readings[i + 1] < s.lastMs;
      }
    }
    hide NextMs, CatchUp;
  }

  /** An id is larger than the one before, except in one case, in which it is the same id again: the
      clock was behind at first and then read the very millisecond of the last id. */
  lemma IdGrows(s: State, readings: seq<int>)
    requires Valid(s) && Generate(s, readings).outcome.Id?
    ensures var c := Generate(s, readings);
      && Valid(c.state) && c.state.worker == s.worker && c.outcome.value == LastId(c.state)
      && (c.outcome.value > LastId(s) <==> !(readings[0] < s.lastMs && c.state.lastMs == s.lastMs))
      && (readings[0] < s.lastMs && c.state.lastMs == s.lastMs ==> c.outcome.value == LastId(s))
  {
    var c := Generate(s, readings);
    CatchUpReaches(s.lastMs, readings[1..]);
    NextMsReaches(s.lastMs, readings[1..]);
    PackInjective(s.lastMs, s.worker, s.seqNo, c.state.lastMs, s.worker, c.state.seqNo);
  }

  /** The duplicate happens: two calls return the same id when the clock steps back by a millisecond
      and catches up. */
  lemma DuplicateHappens()
    ensures var first := Generate(State(1, 0, 0), [EPOCH + 5]);
      var second := Generate(first.state, [EPOCH + 4, EPOCH + 5, EPOCH + 5]);
      first.outcome.Id? && second.outcome == first.outcome
  {
    assert [EPOCH + 5][1..] == [];
    assert [EPOCH + 4, EPOCH + 5, EPOCH + 5][1..] == [EPOCH + 5, EPOCH + 5];
    assert [EPOCH + 5, EPOCH + 5][1..] == [EPOCH + 5];
  }

  // ---------------------------------------------------------------- every run

  datatype History = History(state: State, ids: seq<int>, left: seq<int>)

  /** So many calls one after the other on one sequence of readings; a call that gives up returns no id,
      and the run ends when a call does not return. */
  function RunCalls(s: State, readings: seq<int>, calls: nat): History {
    if calls == 0 then History(s, [], readings)
    else
      var before := RunCalls(s, readings, calls - 1);
      var c := Generate(before.state, before.left);
      if c.outcome.Id? then History(c.state, before.ids + [c.outcome.value], c.left)
      else History(c.state, before.ids, if c.outcome == Backward then c.left else [])
  }

  predicate Steady(readings: seq<int>, from: int) {
    && (forall i :: 0 <= i < |readings| ==> readings[i] >= from)
    && (forall i, j :: 0 <= i < j < |readings| ==> readings[i] <= readings[j])
  }

  lemma {:induction false} NextMsStaysSteady(last: int, readings: seq<int>)
    requires Steady(readings, last)
    ensures NextMs(last, readings).Now? ==> Steady(NextMs(last, readings).left, NextMs(last, readings).ms)
  {
    if readings != [] && readings[0] <= last {
      NextMsStaysSteady(last, readings[1..]);
    }
  }

  /** With a steady clock a call never looks back, and leaves the clock steady for the next one. */
  lemma SteadyCall(s: State, readings: seq<int>)
    requires Valid(s) && Steady(readings, s.lastMs)
    ensures var c := Generate(s, readings);
      && Valid(c.state) && c.state.worker == s.worker && c.outcome != Backward
      && (c.outcome.Id? ==>
            Steady(c.left, c.state.lastMs) && c.outcome.value > LastId(s) && c.outcome.value == LastId(c.state))
      && (c.outcome == Waiting ==> c.left == [])
  {
    if readings != [] {
      NextMsStaysSteady(s.lastMs, readings[1..]);
      if Generate(s, readings).outcome.Id? {
        IdGrows(s, readings);
      }
    }
  }

  /** Over every run of one generator with a clock that never goes back, ids strictly increase, also
      across the wrap-around of the sequence within a millisecond, and no call gives up. */
  lemma {:induction false} IdsIncrease(s: State, readings: seq<int>, calls: nat)
    requires Valid(s) && Steady(readings, s.lastMs)
    ensures var h := RunCalls(s, readings, calls);
      && Valid(h.state) && h.state.worker == s.worker
      && (h.left != [] ==> Steady(h.left, h.state.lastMs))
      && (forall i, j :: 0 <= i < j < |h.ids| ==> h.ids[i] < h.ids[j])
      && (forall i :: 0 <= i < |h.ids| ==> LastId(s) < h.ids[i] && IsFrom(h.ids[i], s.worker))
      && (h.left != [] && h.ids != [] ==> h.ids[|h.ids| - 1] == LastId(h.state))
      && (h.left != [] && h.ids == [] ==> LastId(h.state) == LastId(s))
  {
    hide Generate, Pack;
    if calls > 0 {
      IdsIncrease(s, readings, calls - 1);
      var before := RunCalls(s, readings, calls - 1);
      if before.left == [] {
        NoReadings(before.state);
      } else {
        SteadyCall(before.state, before.left);
        var c := Generate(before.state, before.left);
        if c.outcome.Id? {
          FromWorker(c.state);
        }
      }
    }
  }

  lemma NoReadings(s: State)
    ensures Generate(s, []) == Call(s, Waiting, [])
  {
  }

  /** An id that some generator with this worker number can return. */
  ghost predicate IsFrom(id: int, worker: int) {
    exists ms, seqNo :: 0 <= seqNo <= MAX_SEQ && id == Pack(ms, worker, seqNo)
  }

  lemma FromWorker(s: State)
    requires Valid(s)
    ensures IsFrom(LastId(s), s.worker)
  {
  }

  lemma CallIsFrom(s: State, readings: seq<int>)
    requires Valid(s)
    ensures var c := Generate(s, readings);
      Valid(c.state) && c.state.worker == s.worker && (c.outcome.Id? ==> c.outcome.value == LastId(c.state))
  {
    if Generate(s, readings).outcome.Id? {
      IdGrows(s, readings);
    }
  }

  /** Whatever the clock reads. */
  lemma {:induction false} IdsAreFrom(s: State, readings: seq<int>, calls: nat)
    requires Valid(s)
    ensures var h := RunCalls(s, readings, calls);
      && Valid(h.state) && h.state.worker == s.worker
      && (forall i :: 0 <= i < |h.ids| ==> IsFrom(h.ids[i], s.worker))
  {
    hide Generate, Pack, IsFrom;
    if calls > 0 {
      IdsAreFrom(s, readings, calls - 1);
      var before := RunCalls(s, readings, calls - 1);
      CallIsFrom(before.state, before.left);
      FromWorker(Generate(before.state, before.left).state);
    }
  }

  /** Generators with different worker numbers never return the same id, whatever their clocks do. */
  lemma {:induction false} WorkersNeverCollide(s: State, t: State, readings: seq<int>, others: seq<int>, calls: nat,
                                               more: nat)
    requires Valid(s) && Valid(t) && s.worker != t.worker
    ensures forall a, b :: a in RunCalls(s, readings, calls).ids && b in RunCalls(t, others, more).ids ==> a != b
  {
    hide RunCalls, Pack;
    IdsAreFrom(s, readings, calls);
    IdsAreFrom(t, others, more);
    forall a, b | a in RunCalls(s, readings, calls).ids && b in RunCalls(t, others, more).ids
      ensures a != b
    {
      assert IsFrom(a, s.worker) && IsFrom(b, t.worker);
      var ms, i :| 0 <= i <= MAX_SEQ && a == Pack(ms, s.worker, i);
      var mt, j :| 0 <= j <= MAX_SEQ && b == Pack(mt, t.worker, j);
      PackInjective(ms, s.worker, i, mt, t.worker, j);
    }
  }

  // ---------------------------------------------------------------- the generator object

  class Generator {
    const worker: int
    var lastMs: int
    var seqNo: int

    function Snapshot(): State
      reads this
    {
      State(worker, lastMs, seqNo)
    }

    /** New refuses worker numbers that do not fit three bits. */
    static method New(workerId: int) returns (g: Option<Generator>)
      ensures g.Some? <==> 0 <= workerId <= 7
      ensures g.Some? ==> g.value.Snapshot() == State(workerId, 0, 0) && fresh(g.value)
    {
      if workerId < 0 || workerId > MAX_WORKER {
        return None;
      }
      var made := new Generator(workerId);
      g := Some(made);
    }

    constructor (worker: int)
      ensures Snapshot() == State(worker, 0, 0)
    {
      this.worker, lastMs, seqNo := worker, 0, 0;
    }

    method Next(readings: seq<int>) returns (outcome: Outcome, left: seq<int>)
      modifies this
      ensures Call(Snapshot(), outcome, left) == Generate(old(Snapshot()), readings)
    {
      if readings == [] {
        return Waiting, [];
      }
      var now := readings[0];
      left := readings[1..];
      if now < lastMs {
        var wait := lastMs - now;
        while wait > 0
          invariant wait > 0 ==> CatchUp(lastMs, left) == CatchUp(lastMs, readings[1..])
          invariant wait <= 0 ==> Recheck(lastMs, left) == CatchUp(lastMs, readings[1..])
          invariant lastMs == old(lastMs) && seqNo == old(seqNo)
          decreases |left|, wait
        {
          if |left| < 1 {
            return Waiting, [];
          }
          if left[0] >= lastMs {
            left := left[1..];
            break;
          }
          if |left| < 2 {
            return Waiting, [];
          }
          if lastMs - left[1] > 2 {
            return Backward, left[2..];
          }
          if |left| < 3 {
            return Waiting, [];
          }
          wait := lastMs - left[2];
          left := left[3..];
        }
        if left == [] {
          return Waiting, [];
        }
        now := left[0];
        left := left[1..];
        if now < lastMs {
          return Backward, left;
        }
      } else if now == lastMs {
        seqNo := (seqNo + 1) % 1024;
        if seqNo == 0 {
          while now <= lastMs
            invariant if now <= lastMs then NextMs(lastMs, left) == NextMs(lastMs, readings[1..])
                      else NextMs(lastMs, readings[1..]) == Now(now, left)
            invariant lastMs == old(lastMs) && seqNo == 0
            decreases |left|, lastMs - now
          {
            if left == [] {
              return Waiting, [];
            }
            now := left[0];
            left := left[1..];
          }
        }
      } else {
        seqNo := 0;
      }
      lastMs := now;
      outcome := Id(Pack(now, worker, seqNo));
    }
  }
}
