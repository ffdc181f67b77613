// The route cache of the deliver worker: entries live 30 seconds, offline verdicts included, and are
// dropped when a server says that the user is not there.
module Routing {
  import opened Wrappers
  import opened Chat

  type Time = nat  // milliseconds

  const ROUTE_TTL: nat := 30_000

  /** The address of a user's server, empty when the user is offline. */
  type Verdict = string

  datatype Entry = Entry(addr: Verdict, expireAt: Time)

  /** What one read of an online:{uid} record gives: the route, no record, or an error. A record that
      cannot be decoded is an error. */
  datatype Reading = Value(addr: Verdict) | Missing | Unreadable

  function ReadRecord(online: map<Uid, OnlineValue>, u: Uid): Reading {
    if u !in online then Missing
    else
      match online[u]
      case Malformed(_) => Unreadable
      case Route(_, addr) => Value(addr)
  }

  function VerdictOf(r: Reading): Option<Verdict> {
    match r
    case Value(addr) => Some(addr)
    case Missing => Some("")
    case Unreadable => None
  }

  /** A lookup that finds a live entry. */
  predicate Hit(cache: map<Uid, Entry>, u: Uid, now: Time) {
    u in cache && now < cache[u].expireAt
  }

  function Stamp(cache: map<Uid, Entry>, u: Uid, r: Reading, now: Time): map<Uid, Entry> {
    match VerdictOf(r)
    case None => cache
    case Some(addr) => cache[u := Entry(addr, now + ROUTE_TTL)]
  }

  class Router {
    var cache: map<Uid, Entry>

    constructor ()
      ensures cache == map[]
    {
      cache := map[];
    }

    /** `now` and `later` are the clock at the check and at the stamp, `reading` what the database
        answers in between; None is an error. */
    method Get(u: Uid, now: Time, reading: Reading, later: Time) returns (r: Option<Verdict>)
      modifies this
      ensures r == if Hit(old(cache), u, now) then Some(old(cache)[u].addr) else VerdictOf(reading)
      ensures cache == if Hit(old(cache), u, now) then old(cache) else Stamp(old(cache), u, reading, later)
    {
      if u in cache {
        var entry := cache[u];
        if now < entry.expireAt {
          return Some(entry.addr);
        }
      }
      match reading {
        case Missing =>
          cache := cache[u := Entry("", later + ROUTE_TTL)];
          return Some("");
        case Unreadable =>
          return None;
        case Value(addr) =>
          cache := cache[u := Entry(addr, later + ROUTE_TTL)];
          return Some(addr);
      }
    }

    method Invalidate(u: Uid)
      modifies this
      ensures cache == old(cache) - {u}
    {
      cache := cache - {u};
    }
  }

  // ---------------------------------------------------------------- histories

  datatype Snapshot = Snapshot(time: Time, online: map<Uid, OnlineValue>)

  /** A read whose result is not yet in the cache. */
  datatype Pending = Pending(uid: Uid, reading: Reading, readAt: Time)

  /** `past` lists every state of the records with the time at which it was current; the last one is
      current now. `lookups` are the lookups in progress, one per goroutine. */
  datatype World = World(past: seq<Snapshot>, cache: map<Uid, Entry>, lookups: map<nat, Pending>)

  datatype Event =
    | Tick(time: Time)
    | Change(online: map<Uid, OnlineValue>)
    | Read(goroutine: nat, uid: Uid)   // a lookup that misses reads the record
    | Finish(goroutine: nat)           // and later stamps and returns it
    | Drop(uid: Uid)                   // Invalidate

  function Now(w: World): Time
    requires w.past != []
  {
    w.past[|w.past| - 1].time
  }

  function Current(w: World): map<Uid, OnlineValue>
    requires w.past != []
  {
    w.past[|w.past| - 1].online
  }

  /** The clock never goes back, and a read is stamped at most `slack` after it was made. */
  predicate Possible(w: World, e: Event, slack: nat)
    requires w.past != []
  {
    match e
    case Tick(time) => Now(w) <= time
    case Change(_) => true
    case Read(g, u) => g !in w.lookups && !Hit(w.cache, u, Now(w))
    case Finish(g) => g in w.lookups && Now(w) <= w.lookups[g].readAt + slack
    case Drop(_) => true
  }

  function Happen(w: World, e: Event): (r: World)
    requires w.past != []
    ensures r.past != []
  {
    match e
    case Tick(time) => w.(past := w.past + [Snapshot(time, Current(w))])
    case Change(online) => w.(past := w.past + [Snapshot(Now(w), online)])
    case Read(g, u) => w.(lookups := w.lookups[g := Pending(u, ReadRecord(Current(w), u), Now(w))])
    case Finish(g) =>
      if g !in w.lookups then w
      else
        var p := w.lookups[g];
        w.(cache := Stamp(w.cache, p.uid, p.reading, Now(w)), lookups := w.lookups - {g})
    case Drop(u) => w.(cache := w.cache - {u})
  }

  /** The record gives this address, or there is none and the address is empty. */
  predicate Says(online: map<Uid, OnlineValue>, u: Uid, addr: Verdict) {
    if u in online then online[u].Route? && online[u].addr == addr else addr == ""
  }

  /** A read returns what the record says, and an error if it cannot be decoded. */
  lemma ReadSays(online: map<Uid, OnlineValue>, u: Uid, addr: Verdict)
    ensures VerdictOf(ReadRecord(online, u)) == Some(addr) <==> Says(online, u, addr)
    ensures ReadRecord(online, u) == Unreadable <==> u in online && online[u].Malformed?
  {
  }

  /** At some moment not before `since` the record said so. */
  predicate TrueSince(past: seq<Snapshot>, u: Uid, addr: Verdict, since: int) {
    exists i :: 0 <= i < |past| && past[i].time >= since && Says(past[i].online, u, addr)
  }

  /** Every entry and every read in progress was true when it was read. */
  ghost predicate Honest(w: World, slack: nat) {
    && w.past != []
    && (forall u :: u in w.cache ==> TrueSince(w.past, u, w.cache[u].addr, w.cache[u].expireAt - ROUTE_TTL - slack))
    && (forall g :: g in w.lookups && w.lookups[g].reading != Unreadable ==>
          TrueSince(w.past, w.lookups[g].uid, VerdictOf(w.lookups[g].reading).value, w.lookups[g].readAt))
  }

  lemma TrueLater(past: seq<Snapshot>, more: seq<Snapshot>, u: Uid, addr: Verdict, since: int, before: int)
    requires TrueSince(past, u, addr, since) && before <= since
    ensures TrueSince(past + more, u, addr, before)
  {
    var i :| 0 <= i < |past| && past[i].time >= since && Says(past[i].online, u, addr);
    assert (past + more)[i] == past[i];
  }

  lemma HappenIsHonest(w: World, e: Event, slack: nat)
    requires Honest(w, slack) && Possible(w, e, slack)
    ensures Honest(Happen(w, e), slack)
  {
    var v := Happen(w, e);
    var more := v.past[|w.past|..];
    assert v.past == w.past + more;
    hide TrueSince, ReadRecord;
    forall u | u in v.cache
      ensures TrueSince(v.past, u, v.cache[u].addr, v.cache[u].expireAt - ROUTE_TTL - slack)
    {
      if u in w.cache && v.cache[u] == w.cache[u] {
        var since := w.cache[u].expireAt - ROUTE_TTL - slack;
        TrueLater(w.past, more, u, w.cache[u].addr, since, since);
      } else {
        var p := w.lookups[e.goroutine];
        TrueLater(w.past, more, u, VerdictOf(p.reading).value, p.readAt, v.cache[u].expireAt - ROUTE_TTL - slack);
      }
    }
    forall g | g in v.lookups && v.lookups[g].reading != Unreadable
      ensures TrueSince(v.past, v.lookups[g].uid, VerdictOf(v.lookups[g].reading).value, v.lookups[g].readAt)
    {
      if g in w.lookups && v.lookups[g] == w.lookups[g] {
        var p := w.lookups[g];
        TrueLater(w.past, more, p.uid, VerdictOf(p.reading).value, p.readAt, p.readAt);
      } else {
        NowTrue(w, e.uid);
      }
    }
  }

  lemma NowTrue(w: World, u: Uid)
    requires w.past != [] && ReadRecord(Current(w), u) != Unreadable
    ensures TrueSince(w.past, u, VerdictOf(ReadRecord(Current(w), u)).value, Now(w))
  {
    ReadSays(Current(w), u, VerdictOf(ReadRecord(Current(w), u)).value);
    assert w.past[|w.past| - 1].time >= Now(w);
  }

  function History(w: World, events: seq<Event>): (r: World)
    requires w.past != []
    ensures r.past != []
  {
    if events == [] then w else Happen(History(w, events[..|events| - 1]), events[|events| - 1])
  }

  predicate PossibleHistory(w: World, events: seq<Event>, slack: nat)
    requires w.past != []
  {
    events == [] ||
    (PossibleHistory(w, events[..|events| - 1], slack)
     && Possible(History(w, events[..|events| - 1]), events[|events| - 1], slack))
  }

  lemma {:induction false} HistoryIsHonest(w: World, events: seq<Event>, slack: nat)
    requires Honest(w, slack) && PossibleHistory(w, events, slack)
    ensures Honest(History(w, events), slack)
  {
    hide Honest, Possible, Happen;
    HonestHasPast(w, slack);
    if events != [] {
      HistoryIsHonest(w, events[..|events| - 1], slack);
      HappenIsHonest(History(w, events[..|events| - 1]), events[|events| - 1], slack);
    }
  }

  lemma HonestHasPast(w: World, slack: nat)
    requires Honest(w, slack)
    ensures w.past != []
  {
  }

  /** Bounded staleness: over every history of record changes, lookups by any number of goroutines
      and invalidations, whatever a lookup returns, an address or the verdict that the user is
      offline, the record said at some moment of the last 30 seconds and the time a read takes to be
      stamped. */
  lemma {:induction false} VerdictsAreRecent(first: Snapshot, events: seq<Event>, slack: nat, u: Uid, g: nat)
    requires PossibleHistory(World([first], map[], map[]), events, slack)
    ensures var w := History(World([first], map[], map[]), events);
      && (Hit(w.cache, u, Now(w)) ==> TrueSince(w.past, u, w.cache[u].addr, Now(w) - 30_000 - slack + 1))
      && (Possible(w, Finish(g), slack) && w.lookups[g].reading != Unreadable ==>
            TrueSince(w.past, w.lookups[g].uid, VerdictOf(w.lookups[g].reading).value, Now(w) - slack))
  {
    var w0 := World([first], map[], map[]);
    FirstIsHonest(first, slack);
    hide *;
    HistoryIsHonest(w0, events, slack);
    HonestIsRecent(History(w0, events), slack, u, g);
  }

  lemma FirstIsHonest(first: Snapshot, slack: nat)
    ensures Honest(World([first], map[], map[]), slack)
  {
  }

  lemma HonestIsRecent(w: World, slack: nat, u: Uid, g: nat)
    requires w.past != [] && Honest(w, slack)
    ensures Hit(w.cache, u, Now(w)) ==> TrueSince(w.past, u, w.cache[u].addr, Now(w) - 30_000 - slack + 1)
    ensures Possible(w, Finish(g), slack) && w.lookups[g].reading != Unreadable ==>
      TrueSince(w.past, w.lookups[g].uid, VerdictOf(w.lookups[g].reading).value, Now(w) - slack)
  {
    hide TrueSince, ReadRecord;
    assert w.past + [] == w.past;
    if Hit(w.cache, u, Now(w)) {
      TrueLater(w.past, [], u, w.cache[u].addr, w.cache[u].expireAt - ROUTE_TTL - slack, Now(w) - ROUTE_TTL - slack + 1);
    }
    if Possible(w, Finish(g), slack) && w.lookups[g].reading != Unreadable {
      TrueLater(w.past, [], w.lookups[g].uid, VerdictOf(w.lookups[g].reading).value, w.lookups[g].readAt, Now(w) - slack);
    }
  }

  // ---------------------------------------------------------------- thirty seconds

  /** Every hit in every history is of a verdict that was true in the last 30 seconds. */
  ghost predicate HitsAreFresh(slack: nat) {
    forall first, events, u :: PossibleHistory(World([first], map[], map[]), events, slack) ==>
      HitIsFresh(History(World([first], map[], map[]), events), u)
  }

  predicate HitIsFresh(w: World, u: Uid)
    requires w.past != []
  {
    Hit(w.cache, u, Now(w)) ==> TrueSince(w.past, u, w.cache[u].addr, Now(w) - 30_000)
  }

  lemma {:induction false} Then(w: World, es: seq<Event>, e: Event, v: World, slack: nat)
    requires w.past != [] && PossibleHistory(w, es, slack) && Possible(History(w, es), e, slack)
    requires Happen(History(w, es), e) == v
    ensures PossibleHistory(w, es + [e], slack) && History(w, es + [e]) == v
  {
    assert (es + [e])[..|es|] == es;
  }

  /** The history: a record is read and at once removed, the read takes `slack` to be stamped, and the
      entry is found in its last moment. */
  lemma SlowStampIsStale(slack: nat)
    requires slack >= 2
    ensures var was: map<Uid, OnlineValue> := map["u" := Route("a", "a")];
      var w0 := World([Snapshot(0, was)], map[], map[]);
      var es := [Read(1, "u")] + [Change(map[])] + [Tick(slack)] + [Finish(1)] + [Tick(ROUTE_TTL + slack - 1)];
      && PossibleHistory(w0, es, slack)
      && var w := History(w0, es);
         Hit(w.cache, "u", Now(w)) && !TrueSince(w.past, "u", w.cache["u"].addr, Now(w) - ROUTE_TTL)
  {
    var was: map<Uid, OnlineValue> := map["u" := Route("a", "a")];
    var w0 := World([Snapshot(0, was)], map[], map[]);
    var s0, s1, s2 := Snapshot(0, was), Snapshot(0, map[]), Snapshot(slack, map[]);
    var s3 := Snapshot(ROUTE_TTL + slack - 1, map[]);
    var reading := map[1 := Pending("u", Value("a"), 0)];
    var stamped := map["u" := Entry("a", slack + ROUTE_TTL)];
    var w1, w2 := World([s0], map[], reading), World([s0, s1], map[], reading);
    var w3, w4 := World([s0, s1, s2], map[], reading), World([s0, s1, s2], stamped, map[]);
    var w5 := World([s0, s1, s2, s3], stamped, map[]);
    assert Happen(w0, Read(1, "u")) == w1;
    assert Happen(w1, Change(map[])) == w2;
    assert Happen(w2, Tick(slack)) == w3;
    assert Happen(w3, Finish(1)) == w4;
    assert Happen(w4, Tick(ROUTE_TTL + slack - 1)) == w5;
    assert !TrueSince(w5.past, "u", "a", slack - 1);
    hide TrueSince;
    var es := [Read(1, "u")];
    assert [] + es == es;
    Then(w0, [], Read(1, "u"), w1, slack);
    Then(w0, es, Change(map[]), w2, slack);
    es := es + [Change(map[])];
    Then(w0, es, Tick(slack), w3, slack);
    es := es + [Tick(slack)];
    Then(w0, es, Finish(1), w4, slack);
    es := es + [Finish(1)];
    Then(w0, es, Tick(ROUTE_TTL + slack - 1), w5, slack);
  }

  lemma QuickStampIsFresh(w: World, slack: nat, u: Uid)
    requires w.past != [] && Honest(w, slack) && slack <= 1
    ensures HitIsFresh(w, u)
  {
    hide TrueSince;
    assert w.past + [] == w.past;
    if Hit(w.cache, u, Now(w)) {
      TrueLater(w.past, [], u, w.cache[u].addr, w.cache[u].expireAt - ROUTE_TTL - slack, Now(w) - ROUTE_TTL);
    }
  }

  /** The bound of 30 seconds holds for every history if and only if a read is stamped in the instant of
      the clock after it, if not in the same: the entry lives for 30 seconds from the stamp, and the
      record may have changed while the read was on its way. */
  lemma ThirtySecondsExactly(slack: nat)
    ensures HitsAreFresh(slack) <==> slack <= 1
  {
    if slack <= 1 {
      forall first, events, u | PossibleHistory(World([first], map[], map[]), events, slack)
        ensures HitIsFresh(History(World([first], map[], map[]), events), u)
      {
        FirstIsHonest(first, slack);
        hide *;
        HistoryIsHonest(World([first], map[], map[]), events, slack);
        QuickStampIsFresh(History(World([first], map[], map[]), events), slack, u);
      }
    } else {
      SlowStampIsStale(slack);
      hide PossibleHistory, History, TrueSince;
      var was: map<Uid, OnlineValue> := map["u" := Route("a", "a")];
      var es := [Read(1, "u")] + [Change(map[])] + [Tick(slack)] + [Finish(1)] + [Tick(ROUTE_TTL + slack - 1)];
      assert !HitIsFresh(History(World([Snapshot(0, was)], map[], map[]), es), "u");
    }
  }

  // ---------------------------------------------------------------- how long an entry lives

  /** No entry of u is dropped or stamped. */
  predicate LeavesEntry(w: World, e: Event, u: Uid)
    requires w.past != []
  {
    e != Drop(u) && !(e.Finish? && e.goroutine in w.lookups && w.lookups[e.goroutine].uid == u)
  }

  ghost predicate LeaveEntry(w: World, events: seq<Event>, u: Uid)
    requires w.past != []
  {
    events == [] ||
    (LeaveEntry(w, events[..|events| - 1], u) && LeavesEntry(History(w, events[..|events| - 1]), events[|events| - 1], u))
  }

  lemma {:induction false} EntryStays(w: World, events: seq<Event>, u: Uid)
    requires w.past != [] && u in w.cache && LeaveEntry(w, events, u)
    ensures var v := History(w, events); u in v.cache && v.cache[u] == w.cache[u]
  {
    if events != [] {
      EntryStays(w, events[..|events| - 1], u);
      hide ReadRecord;
    }
  }

  /** What a look-up has read serves every look-up after it for 30 seconds, an absent record included,
      unless the entry is dropped or stamped again; and not a moment longer. */
  lemma {:induction false} EntryLivesThirtySeconds(w: World, g: nat, events: seq<Event>, u: Uid, addr: Verdict)
    requires w.past != [] && g in w.lookups && w.lookups[g].uid == u && VerdictOf(w.lookups[g].reading) == Some(addr)
    requires LeaveEntry(Happen(w, Finish(g)), events, u)
    ensures var v := History(Happen(w, Finish(g)), events);
      && u in v.cache && v.cache[u].addr == addr
      && (Hit(v.cache, u, Now(v)) <==> Now(v) < Now(w) + 30_000)
  {
    EntryStays(Happen(w, Finish(g)), events, u);
  }

  // ---------------------------------------------------------------- after an invalidation

  predicate ReadSince(p: Pending, u: Uid, since: int) {
    p.uid == u && p.readAt >= since && p.reading != Unreadable
  }

  /** Whatever is known of u was true at moment `n` of the past or after it, but for reads made before
      `since`. */
  ghost predicate ReadAfter(w: World, n: nat, u: Uid, since: int) {
    && (u in w.cache ==> TrueAfter(w.past, n, u, w.cache[u].addr))
    && (forall g :: g in w.lookups && ReadSince(w.lookups[g], u, since) ==>
          TrueAfter(w.past, n, u, VerdictOf(w.lookups[g].reading).value))
  }

  predicate TrueAfter(past: seq<Snapshot>, n: nat, u: Uid, addr: Verdict) {
    exists i :: n <= i < |past| && Says(past[i].online, u, addr)
  }

  lemma TrueAfterLater(past: seq<Snapshot>, more: seq<Snapshot>, n: nat, u: Uid, addr: Verdict)
    requires TrueAfter(past, n, u, addr)
    ensures TrueAfter(past + more, n, u, addr)
  {
    var i :| n <= i < |past| && Says(past[i].online, u, addr);
    assert (past + more)[i] == past[i];
  }

  lemma HappenReadsAfter(w: World, e: Event, slack: nat, n: nat, u: Uid, since: int)
    requires w.past != [] && n < |w.past| && ReadAfter(w, n, u, since) && Possible(w, e, slack)
    requires since + slack <= Now(w)
    ensures ReadAfter(Happen(w, e), n, u, since) && n < |Happen(w, e).past| && since + slack <= Now(Happen(w, e))
  {
    var v := Happen(w, e);
    var more := v.past[|w.past|..];
    assert v.past == w.past + more;
    hide TrueAfter, ReadRecord;
    if u in v.cache {
      if u in w.cache && v.cache[u] == w.cache[u] {
        TrueAfterLater(w.past, more, n, u, w.cache[u].addr);
      } else {
        TrueAfterLater(w.past, more, n, u, v.cache[u].addr);
      }
    }
    forall g | g in v.lookups && ReadSince(v.lookups[g], u, since)
      ensures TrueAfter(v.past, n, u, VerdictOf(v.lookups[g].reading).value)
    {
      if g in w.lookups && v.lookups[g] == w.lookups[g] {
        TrueAfterLater(w.past, more, n, u, VerdictOf(w.lookups[g].reading).value);
      } else {
        CurrentIsAfter(w, n, u);
      }
    }
  }

  lemma CurrentIsAfter(w: World, n: nat, u: Uid)
    requires n < |w.past| && ReadRecord(Current(w), u) != Unreadable
    ensures TrueAfter(w.past, n, u, VerdictOf(ReadRecord(Current(w), u)).value)
  {
    ReadSays(Current(w), u, VerdictOf(ReadRecord(Current(w), u)).value);
    assert n <= |w.past| - 1 < |w.past|;
  }

  lemma {:induction false} HistoryReadsAfter(w: World, events: seq<Event>, slack: nat, n: nat, u: Uid, since: int)
    requires w.past != [] && n < |w.past| && ReadAfter(w, n, u, since) && PossibleHistory(w, events, slack)
    requires since + slack <= Now(w)
    ensures ReadAfter(History(w, events), n, u, since)
    ensures n < |History(w, events).past| && since + slack <= Now(History(w, events))
  {
    hide ReadAfter, Possible, Happen, Now;
    if events != [] {
      var k := |events| - 1;
      HistoryReadsAfter(w, events[..k], slack, n, u, since);
      HappenReadsAfter(History(w, events[..k]), events[k], slack, n, u, since);
    }
  }

  /** The correction after not_found: once the only goroutine that looks up u drops its entry, every
      later verdict on u, cached or read, was true at that moment or after it, not before. */
  lemma {:induction false} RetryReadsAfresh(w: World, u: Uid, events: seq<Event>, slack: nat)
    requires w.past != [] && (forall g :: g in w.lookups ==> w.lookups[g].uid != u)
    requires PossibleHistory(Happen(w, Drop(u)), events, slack)
    ensures var n, v := |w.past| - 1, History(Happen(w, Drop(u)), events);
      && (u in v.cache ==> TrueAfter(v.past, n, u, v.cache[u].addr))
      && (forall g :: g in v.lookups && v.lookups[g].uid == u && v.lookups[g].reading != Unreadable ==>
            TrueAfter(v.past, n, u, VerdictOf(v.lookups[g].reading).value))
  {
    hide History, PossibleHistory;
    HistoryReadsAfter(Happen(w, Drop(u)), events, slack, |w.past| - 1, u, -(slack as int));
  }

  /** Every verdict on u that a lookup can return now was true at moment `n` of the past or after it. */
  ghost predicate VerdictsAfter(w: World, n: nat, u: Uid, slack: nat)
    requires w.past != []
  {
    && (Hit(w.cache, u, Now(w)) ==> TrueAfter(w.past, n, u, w.cache[u].addr))
    && (forall g :: Possible(w, Finish(g), slack) && w.lookups[g].uid == u && w.lookups[g].reading != Unreadable ==>
          TrueAfter(w.past, n, u, VerdictOf(w.lookups[g].reading).value))
  }

  /** After the entry of u is dropped no verdict on u, in any continuation, is older than the drop. */
  ghost predicate DropWorks(w: World, u: Uid, slack: nat)
    requires w.past != []
  {
    forall events :: PossibleHistory(Happen(w, Drop(u)), events, slack) ==>
      VerdictsAfter(History(Happen(w, Drop(u)), events), |w.past| - 1, u, slack)
  }

  /** Every lookup of u under way that can still be stamped has failed, or has read what is true now. */
  ghost predicate NoneBehind(w: World, u: Uid, slack: nat)
    requires w.past != []
  {
    forall g :: Possible(w, Finish(g), slack) && w.lookups[g].uid == u && w.lookups[g].reading != Unreadable ==>
      VerdictOf(w.lookups[g].reading) == VerdictOf(ReadRecord(Current(w), u))
  }

  lemma VerdictsFromReads(w: World, n: nat, u: Uid, slack: nat, since: int)
    requires w.past != [] && ReadAfter(w, n, u, since) && since + slack <= Now(w)
    ensures VerdictsAfter(w, n, u, slack)
  {
  }

  lemma TrueNow(past: seq<Snapshot>, u: Uid, addr: Verdict)
    requires past != []
    ensures TrueAfter(past, |past| - 1, u, addr) <==> VerdictOf(ReadRecord(past[|past| - 1].online, u)) == Some(addr)
  {
    ReadSays(past[|past| - 1].online, u, addr);
  }

  /** The drop, exactly: it works in every continuation if and only if no lookup of u in progress is
      behind the record at that moment. */
  lemma DropIsExact(w: World, u: Uid, slack: nat)
    requires w.past != []
    ensures DropWorks(w, u, slack) <==> NoneBehind(w, u, slack)
  {
    var v, n := Happen(w, Drop(u)), |w.past| - 1;
    hide ReadRecord, TrueAfter;
    forall addr {
      TrueNow(w.past, u, addr);
    }
    if NoneBehind(w, u, slack) {
      assert ReadAfter(v, n, u, Now(w) - slack) by {
        forall g | g in v.lookups && ReadSince(v.lookups[g], u, Now(w) - slack)
          ensures TrueAfter(v.past, n, u, VerdictOf(v.lookups[g].reading).value)
        {
          assert Possible(w, Finish(g), slack);
        }
      }
      hide NoneBehind, ReadAfter, History, PossibleHistory, VerdictsAfter;
      forall events | PossibleHistory(v, events, slack)
        ensures VerdictsAfter(History(v, events), n, u, slack)
      {
        HistoryReadsAfter(v, events, slack, n, u, Now(w) - slack);
        VerdictsFromReads(History(v, events), n, u, slack, Now(w) - slack);
      }
    }
    if DropWorks(w, u, slack) {
      assert PossibleHistory(v, [], slack) && History(v, []) == v;
      assert VerdictsAfter(v, n, u, slack);
      forall g | Possible(w, Finish(g), slack) && w.lookups[g].uid == u && w.lookups[g].reading != Unreadable
        ensures VerdictOf(w.lookups[g].reading) == VerdictOf(ReadRecord(Current(w), u))
      {
        assert Possible(v, Finish(g), slack);
      }
    }
  }

  /** With a second goroutine between its read and its stamp the correction can be undone: the old
      address comes back after the entry was dropped. */
  lemma StampUndoesDrop()
    ensures
      var old', new' := map["u" := Route("a", "a")], map["u" := Route("b", "b")];
      var w := History(World([Snapshot(0, old')], map[], map[]),
                       [Read(1, "u"), Change(new'), Drop("u"), Finish(1)]);
      Hit(w.cache, "u", Now(w)) && w.cache["u"].addr == "a" && ReadRecord(Current(w), "u") == Value("b")
  {
    var w0 := World([Snapshot(0, map["u" := Route("a", "a")])], map[], map[]);
    var es := [Read(1, "u"), Change(map["u" := Route("b", "b")]), Drop("u"), Finish(1)];
    assert es[..3] == [es[0], es[1], es[2]] && es[..3][..2] == [es[0], es[1]] && es[..3][..2][..1] == [es[0]];
    assert History(w0, es[..3][..2][..1]) == Happen(w0, es[0]);
    assert History(w0, es[..3][..2]) == Happen(Happen(w0, es[0]), es[1]);
    assert History(w0, es[..3]) == Happen(Happen(Happen(w0, es[0]), es[1]), es[2]);
  }
}
