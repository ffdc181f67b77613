// Acknowledgements on their way back to the senders: a batch is split by the server each sender is
// connected to, and what a server does not find is sent once more to where the sender is now.
module AckDispatch {
  import opened Wrappers
  import opened Chat
  import opened OnlineKv
  import opened Tables

  /** The address of a sender's server, empty when the record has none. */
  type Addr = string

  // ---------------------------------------------------------------- where the senders are

  /** A record of one of these users that does not decode. */
  predicate Undecodable(t: Table, us: seq<Uid>) {
    exists u :: u in us && OnlineKey(u) in t && t[OnlineKey(u)].route == None
  }

  function Owners(t: Table, us: seq<Uid>): map<Uid, Addr> {
    map u | u in us && OnlineKey(u) in t && t[OnlineKey(u)].route.Some? :: t[OnlineKey(u)].route.value
  }

  /** GetMany: one query, which may fail (no table), and one decoder for all rows. */
  function LookUp(records: Option<Table>, us: seq<Uid>): Option<map<Uid, Addr>> {
    if records == None || Undecodable(records.value, us) then None else Some(Owners(records.value, us))
  }

  function FromUids(acks: seq<Ack>): seq<Uid> {
    if acks == [] then [] else FromUids(acks[..|acks| - 1]) + [acks[|acks| - 1].fromUid]
  }

  lemma {:induction false} FromUidsMeans(acks: seq<Ack>, u: Uid)
    ensures u in FromUids(acks) <==> exists i :: 0 <= i < |acks| && acks[i].fromUid == u
  {
    if acks != [] {
      var k := |acks| - 1;
      FromUidsMeans(acks[..k], u);
      if u in FromUids(acks[..k]) {
        var i :| 0 <= i < k && acks[..k][i].fromUid == u;
        assert acks[i].fromUid == u;
      }
      if exists i :: 0 <= i < k && acks[i].fromUid == u {
        var i :| 0 <= i < k && acks[i].fromUid == u;
        assert acks[..k][i].fromUid == u;
      }
    }
  }

  /** The look-up for a batch fails, apart from a failing query, exactly when the record of one of its
      senders does not decode. */
  lemma {:induction false} LookUpFails(t: Table, acks: seq<Ack>)
    ensures LookUp(Some(t), FromUids(acks)) == None <==>
      exists i :: 0 <= i < |acks| && OnlineKey(acks[i].fromUid) in t && t[OnlineKey(acks[i].fromUid)].route == None
  {
    if Undecodable(t, FromUids(acks)) {
      var u :| u in FromUids(acks) && OnlineKey(u) in t && t[OnlineKey(u)].route == None;
      FromUidsMeans(acks, u);
      var i :| 0 <= i < |acks| && acks[i].fromUid == u;
      assert OnlineKey(acks[i].fromUid) in t;
    }
    if i :| 0 <= i < |acks| && OnlineKey(acks[i].fromUid) in t && t[OnlineKey(acks[i].fromUid)].route == None {
      FromUidsMeans(acks, acks[i].fromUid);
      assert acks[i].fromUid in FromUids(acks);
    }
  }

  /** One record that does not decode takes the acknowledgements of every other sender in the batch
      with it: alone, the other sender would have been found. */
  lemma OneRecordBlocksAnother(t: Table, a: Ack, b: Ack)
    requires OnlineKey(a.fromUid) in t && t[OnlineKey(a.fromUid)].route.Some?
    requires OnlineKey(b.fromUid) in t && t[OnlineKey(b.fromUid)].route == None
    ensures LookUp(Some(t), FromUids([a])) == Some(map[a.fromUid := t[OnlineKey(a.fromUid)].route.value])
    ensures LookUp(Some(t), FromUids([a, b])) == None == LookUp(Some(t), FromUids([b, a]))
  {
    assert [a][..0] == [] && FromUids([a]) == [a.fromUid];
    assert !Undecodable(t, [a.fromUid]);
    assert Owners(t, [a.fromUid]) == map[a.fromUid := t[OnlineKey(a.fromUid)].route.value];
    assert [a, b][..1] == [a] && [b, a][..1] == [b] && [b][..0] == [];
    assert b.fromUid in FromUids([a, b]) && b.fromUid in FromUids([b, a]);
  }

  lemma {:induction false} LookUpOnce(records: Option<Table>, us: seq<Uid>)
    ensures LookUp(records, FirstOccurrences(us)) == LookUp(records, us)
  {
    FirstOccurrencesMean(us);
    if records.Some? {
      assert Undecodable(records.value, FirstOccurrences(us)) <==> Undecodable(records.value, us);
      assert Owners(records.value, FirstOccurrences(us)) == Owners(records.value, us);
    }
  }

  datatype Dest = Nowhere | Local | Remote(addr: Addr)

  function DestOf(owners: map<Uid, Addr>, here: Addr, a: Ack): Dest {
    if a.fromUid !in owners || owners[a.fromUid] == "" then Nowhere
    else if owners[a.fromUid] == here then Local
    else Remote(owners[a.fromUid])
  }

  /** The acknowledgements with one destination, in batch order. */
  function For(acks: seq<Ack>, owners: map<Uid, Addr>, here: Addr, d: Dest): seq<Ack> {
    if acks == [] then []
    else
      var k := |acks| - 1;
      For(acks[..k], owners, here, d) + if DestOf(owners, here, acks[k]) == d then [acks[k]] else []
  }

  /** What a server says about one acknowledgement; None is a missing result. */
  datatype Result = Delivered | NotFound | Refused | Missing

  /** The acknowledgements that were not found; a result list may be shorter or longer than the
      request. */
  function Lost(acks: seq<Ack>, results: seq<Result>): seq<Ack> {
    if acks == [] then []
    else
      var k := |acks| - 1;
      Lost(acks[..k], results) + if k < |results| && results[k] == NotFound then [acks[k]] else []
  }

  datatype Request = Request(addr: Addr, acks: seq<Ack>)

  function Carried(requests: seq<Request>): multiset<Ack> {
    if requests == [] then multiset{}
    else Carried(requests[..|requests| - 1]) + multiset(requests[|requests| - 1].acks)
  }

  // ---------------------------------------------------------------- the batch is partitioned

  lemma {:induction false} ForSnoc(acks: seq<Ack>, a: Ack, owners: map<Uid, Addr>, here: Addr, d: Dest)
    ensures For(acks + [a], owners, here, d) ==
      For(acks, owners, here, d) + if DestOf(owners, here, a) == d then [a] else []
  {
    assert (acks + [a])[..|acks|] == acks;
  }

  lemma {:induction false} ForIsDest(acks: seq<Ack>, owners: map<Uid, Addr>, here: Addr, d: Dest)
    ensures forall a :: a in For(acks, owners, here, d) <==> a in acks && DestOf(owners, here, a) == d
  {
    if acks != [] {
      var k := |acks| - 1;
      ForIsDest(acks[..k], owners, here, d);
      assert acks == acks[..k] + [acks[k]];
    }
  }

  lemma {:induction false} LostAreAcks(acks: seq<Ack>, results: seq<Result>)
    ensures multiset(Lost(acks, results)) <= multiset(acks)
  {
    if acks != [] {
      var k := |acks| - 1;
      LostAreAcks(acks[..k], results);
      assert acks == acks[..k] + [acks[k]];
    }
  }

  /** A part of a list: the elements at the given places, each once, in the order of the list. */
  ghost predicate Picks(all: seq<Ack>, part: seq<Ack>, places: set<nat>) {
    exists at: seq<nat> :: PicksAt(all, part, places, at)
  }

  predicate PicksAt(all: seq<Ack>, part: seq<Ack>, places: set<nat>, at: seq<nat>) {
    && |at| == |part|
    && (forall k :: 0 <= k < |at| ==> at[k] < |all| && all[at[k]] == part[k] && at[k] in places)
    && (forall k, l :: 0 <= k < l < |at| ==> at[k] < at[l])
    && (forall j :: j in places ==> j in at)
  }

  lemma PicksNothing(places: set<nat>)
    requires places == {}
    ensures Picks([], [], places)
  {
    assert PicksAt([], [], places, []);
  }

  lemma PicksMore(all: seq<Ack>, part: seq<Ack>, places: set<nat>, at: seq<nat>, x: Ack)
    requires PicksAt(all, part, places, at)
    ensures PicksAt(all + [x], part + [x], places + {|all|}, at + [|all|])
  {
    var longer := at + [|all|];
    forall j | j in places + {|all|}
      ensures j in longer
    {
      assert j in at || j == longer[|at|];
    }
  }

  lemma PicksSame(all: seq<Ack>, part: seq<Ack>, places: set<nat>, at: seq<nat>, x: Ack)
    requires PicksAt(all, part, places, at)
    ensures PicksAt(all + [x], part, places, at)
  {
  }

  lemma PicksSnoc(all: seq<Ack>, part: seq<Ack>, places: set<nat>, x: Ack, taken: bool, whole: seq<Ack>, more: set<nat>)
    requires Picks(all, part, places) && whole == all + [x] && more == places + if taken then {|all|} else {}
    ensures Picks(whole, part + if taken then [x] else [], more)
  {
    hide PicksAt;
    var at: seq<nat> :| PicksAt(all, part, places, at);
    if taken {
      PicksMore(all, part, places, at, x);
    } else {
      PicksSame(all, part, places, at, x);
      assert part + [] == part && more == places;
    }
  }

  /** What has one destination stands in the order of the batch, with nothing left out or repeated. */
  lemma {:induction false} ForPicks(acks: seq<Ack>, owners: map<Uid, Addr>, here: Addr, d: Dest)
    ensures Picks(acks, For(acks, owners, here, d), set j: nat | j < |acks| && DestOf(owners, here, acks[j]) == d)
  {
    hide DestOf, Picks;
    var places := set j: nat | j < |acks| && DestOf(owners, here, acks[j]) == d;
    if acks == [] {
      PicksNothing(places);
    } else {
      var k := |acks| - 1;
      ForPicks(acks[..k], owners, here, d);
      var before := set j: nat | j < k && DestOf(owners, here, acks[..k][j]) == d;
      assert acks == acks[..k] + [acks[k]];
      assert places == before + if DestOf(owners, here, acks[k]) == d then {k} else {};
      PicksSnoc(acks[..k], For(acks[..k], owners, here, d), before, acks[k],
                DestOf(owners, here, acks[k]) == d, acks, places);
    }
  }

  /** The places of a request that were answered with not_found. */
  function LostPlaces(acks: seq<Ack>, results: seq<Result>): set<nat> {
    set j: nat | j < |acks| && j < |results| && results[j] == NotFound
  }

  /** What a request loses is exactly what stands at the places answered with not_found, in the order of
      the request, with nothing left out or repeated. */
  lemma {:induction false} LostPicks(acks: seq<Ack>, results: seq<Result>)
    ensures Picks(acks, Lost(acks, results), LostPlaces(acks, results))
  {
    hide Picks;
    if acks == [] {
      PicksNothing(LostPlaces(acks, results));
    } else {
      var k := |acks| - 1;
      LostPicks(acks[..k], results);
      assert acks == acks[..k] + [acks[k]];
      var lost := k < |results| && results[k] == NotFound;
      assert LostPlaces(acks, results) == LostPlaces(acks[..k], results) + if lost then {k} else {};
      PicksSnoc(acks[..k], Lost(acks[..k], results), LostPlaces(acks[..k], results), acks[k], lost, acks,
                LostPlaces(acks, results));
    }
  }

  lemma Picked(all: seq<Ack>, part: seq<Ack>, places: set<nat>, j: nat)
    requires Picks(all, part, places) && j in places
    ensures j < |all| && all[j] in part
  {
    var at: seq<nat> :| PicksAt(all, part, places, at);
    var k :| 0 <= k < |at| && at[k] == j;
    assert part[k] == all[j];
  }

  /** Requests of one round: at most one per address, each with everything for its address in batch
      order. */
  ghost predicate Round(requests: seq<Request>, acks: seq<Ack>, owners: map<Uid, Addr>, here: Addr) {
    && (forall i :: 0 <= i < |requests| ==>
          requests[i].acks == For(acks, owners, here, Remote(requests[i].addr)) != [])
    && (forall i, j :: 0 <= i < j < |requests| ==> requests[i].addr != requests[j].addr)
  }

  ghost predicate WholeRound(requests: seq<Request>, acks: seq<Ack>, owners: map<Uid, Addr>, here: Addr) {
    && Round(requests, acks, owners, here)
    && (forall addr :: For(acks, owners, here, Remote(addr)) != [] ==> Served(requests, addr))
  }

  lemma SnocCount(s: seq<Ack>, x: Ack, a: Ack)
    ensures multiset(s + [x])[a] == multiset(s)[a] + if x == a then 1 else 0
  {
  }

  lemma {:induction false} ForCounts(acks: seq<Ack>, owners: map<Uid, Addr>, here: Addr, d: Dest, a: Ack)
    ensures multiset(For(acks, owners, here, d))[a] ==
      if DestOf(owners, here, a) == d then multiset(acks)[a] else 0
  {
    hide DestOf;
    if acks == [] {
    } else {
      var k := |acks| - 1;
      ForCounts(acks[..k], owners, here, d, a);
      assert acks == acks[..k] + [acks[k]];
      SnocCount(acks[..k], acks[k], a);
      SnocCount(For(acks[..k], owners, here, d), acks[k], a);
      assert For(acks, owners, here, d) == if DestOf(owners, here, acks[k]) == d
        then For(acks[..k], owners, here, d) + [acks[k]] else For(acks[..k], owners, here, d);
    }
  }

  predicate Served(requests: seq<Request>, addr: Addr) {
    exists i :: 0 <= i < |requests| && requests[i].addr == addr
  }

  lemma ServedSnoc(requests: seq<Request>, r: Request, addr: Addr)
    ensures Served(requests + [r], addr) <==> Served(requests, addr) || r.addr == addr
  {
    var all := requests + [r];
    if Served(requests, addr) {
      var i :| 0 <= i < |requests| && requests[i].addr == addr;
      assert all[i].addr == addr;
    }
    if r.addr == addr {
      assert all[|requests|].addr == addr;
    }
  }

  /** An acknowledgement is carried as often as it is in the batch if its server has been sent a
      request, and not at all otherwise. */
  lemma {:induction false} CarriedCounts(requests: seq<Request>, acks: seq<Ack>, owners: map<Uid, Addr>, here: Addr,
                                         a: Ack)
    requires Round(requests, acks, owners, here)
    ensures Carried(requests)[a] ==
      if DestOf(owners, here, a).Remote? && Served(requests, DestOf(owners, here, a).addr) then multiset(acks)[a] else 0
  {
    hide DestOf, For, Served;
    if requests == [] {
      NotServed(DestOf(owners, here, a));
    } else {
      var k, r, d := |requests| - 1, requests[|requests| - 1], DestOf(owners, here, a);
      CarriedCounts(requests[..k], acks, owners, here, a);
      assert requests == requests[..k] + [r];
      ForCounts(acks, owners, here, Remote(r.addr), a);
      assert Carried(requests)[a] == Carried(requests[..k])[a] + multiset(r.acks)[a];
      if d.Remote? {
        ServedSnoc(requests[..k], r, d.addr);
        if d.addr == r.addr {
          LastIsNew(requests);
        }
      }
    }
  }

  lemma NotServed(d: Dest)
    ensures d.Remote? ==> !Served([], d.addr)
  {
  }

  lemma LastIsNew(requests: seq<Request>)
    requires requests != [] && forall i, j :: 0 <= i < j < |requests| ==> requests[i].addr != requests[j].addr
    ensures !Served(requests[..|requests| - 1], requests[|requests| - 1].addr)
  {
  }

  /** The first round partitions the batch: every acknowledgement with a known address gets exactly
      one destination, a local attempt or one slot in its server's request, and the others none. */
  lemma {:induction false} FirstRoundPartitions(requests: seq<Request>, acks: seq<Ack>, owners: map<Uid, Addr>,
                                                here: Addr)
    requires WholeRound(requests, acks, owners, here)
    ensures multiset(For(acks, owners, here, Nowhere)) + multiset(For(acks, owners, here, Local)) + Carried(requests)
      == multiset(acks)
  {
    forall a
      ensures (multiset(For(acks, owners, here, Nowhere)) + multiset(For(acks, owners, here, Local)) + Carried(requests))[a]
        == multiset(acks)[a]
    {
      ForCounts(acks, owners, here, Nowhere, a);
      ForCounts(acks, owners, here, Local, a);
      CarriedCounts(requests, acks, owners, here, a);
      var d := DestOf(owners, here, a);
      if d.Remote? && a in acks {
        ForIsDest(acks, owners, here, d);
        assert a in For(acks, owners, here, Remote(d.addr));
      }
    }
  }

  /** In terms of the records: no destination without a known address, a local attempt for a sender on
      this server, and for any other a slot in the request to his server and nowhere else. */
  lemma {:induction false} SendersAreServed(requests: seq<Request>, acks: seq<Ack>, owners: map<Uid, Addr>,
                                            here: Addr, a: Ack)
    requires WholeRound(requests, acks, owners, here) && a in acks
    ensures var known := a.fromUid in owners && owners[a.fromUid] != "";
      && (a in For(acks, owners, here, Local) <==> known && owners[a.fromUid] == here)
      && (a in Carried(requests) <==> known && owners[a.fromUid] != here)
      && (forall i :: 0 <= i < |requests| ==>
            (a in requests[i].acks <==> known && owners[a.fromUid] != here && requests[i].addr == owners[a.fromUid]))
  {
    ForIsDest(acks, owners, here, Local);
    CarriedCounts(requests, acks, owners, here, a);
    var d := DestOf(owners, here, a);
    if d.Remote? {
      ForIsDest(acks, owners, here, d);
      assert a in For(acks, owners, here, Remote(d.addr));
    }
    forall i | 0 <= i < |requests|
      ensures a in requests[i].acks <==> d == Remote(requests[i].addr)
    {
      ForIsDest(acks, owners, here, Remote(requests[i].addr));
    }
  }

  /** A round never carries more than the batch. */
  lemma {:induction false} RoundIsWithin(requests: seq<Request>, acks: seq<Ack>, owners: map<Uid, Addr>, here: Addr)
    requires Round(requests, acks, owners, here)
    ensures Carried(requests) + multiset(For(acks, owners, here, Local)) <= multiset(acks)
  {
    forall a
      ensures (Carried(requests) + multiset(For(acks, owners, here, Local)))[a] <= multiset(acks)[a]
    {
      CarriedCounts(requests, acks, owners, here, a);
      ForCounts(acks, owners, here, Local, a);
    }
  }

  // ---------------------------------------------------------------- one more try

  /** What comes back from a request: an error, nothing usable, or results. */
  datatype Response = Failed | Nothing | Results(results: seq<Result>)

  /** What the other side will answer, per address, and the online records at the look-up after that
      answer; no table is a failing query. */
  datatype Answers = Answers(response: map<Addr, Response>, records: map<Addr, Table>)

  function ResponseOf(answers: Answers, addr: Addr): Response {
    if addr in answers.response then answers.response[addr] else Failed
  }

  function RecordsOf(answers: Answers, addr: Addr): Option<Table> {
    if addr in answers.records then Some(answers.records[addr]) else None
  }

  /** What a request loses: the acknowledgements answered with not_found. */
  function LostOf(r: Request, answers: Answers): seq<Ack> {
    match ResponseOf(answers, r.addr)
    case Results(results) => Lost(r.acks, results)
    case _ => []
  }

  function NowOf(r: Request, answers: Answers): Option<map<Uid, Addr>> {
    LookUp(RecordsOf(answers, r.addr), FromUids(LostOf(r, answers)))
  }

  predicate Succeeds(r: Request, answers: Answers) {
    ResponseOf(answers, r.addr) != Failed && (LostOf(r, answers) != [] ==> NowOf(r, answers).Some?)
  }

  /** What is tried again after one request: everything it lost whose sender now has an address. */
  function RetriedOf(r: Request, answers: Answers, here: Addr): multiset<Ack> {
    var lost, now := LostOf(r, answers), NowOf(r, answers);
    if now == None then multiset{} else multiset(lost) - multiset(For(lost, now.value, here, Nowhere))
  }

  function Retried(requests: seq<Request>, answers: Answers, here: Addr): multiset<Ack> {
    if requests == [] then multiset{}
    else Retried(requests[..|requests| - 1], answers, here) + RetriedOf(requests[|requests| - 1], answers, here)
  }

  lemma {:induction false} CarriedSnoc(requests: seq<Request>, r: Request)
    ensures Carried(requests + [r]) == Carried(requests) + multiset(r.acks)
  {
    assert (requests + [r])[..|requests|] == requests;
  }

  lemma {:induction false} CarriedJoin(a: seq<Request>, b: seq<Request>)
    ensures Carried(a + b) == Carried(a) + Carried(b)
  {
    if b == [] {
      assert a + b == a;
    } else {
      hide Carried;
      var init, r := b[..|b| - 1], b[|b| - 1];
      CarriedJoin(a, init);
      assert b == init + [r] && a + b == a + init + [r];
      CarriedSnoc(init, r);
      CarriedSnoc(a + init, r);
    }
  }

  /** The second round after one request carries exactly what is to be tried again. */
  lemma {:induction false} SecondRoundIsRetried(r: Request, answers: Answers, here: Addr, again: seq<Request>,
                                                back: seq<Ack>)
    requires SecondRound(r, answers, here, again, back)
    ensures Carried(again) + multiset(back) == RetriedOf(r, answers, here)
  {
    var lost, now := LostOf(r, answers), NowOf(r, answers);
    if lost != [] && now.Some? {
      FirstRoundPartitions(again, lost, now.value, here);
    } else if now.Some? {
      assert For([], now.value, here, Nowhere) == [];
    }
  }

  /** What one request leaves to be sent again: nothing, or a whole round for what it lost. */
  ghost predicate SecondRound(r: Request, answers: Answers, here: Addr, again: seq<Request>, back: seq<Ack>) {
    var lost, now := LostOf(r, answers), NowOf(r, answers);
    if lost == [] || now == None then again == [] && back == []
    else WholeRound(again, lost, now.value, here) && back == For(lost, now.value, here, Local)
  }

  /** The address the sender's record has at the second look-up, empty when there is none. */
  function AddrNow(answers: Answers, r: Request, u: Uid): Addr {
    if r.addr in answers.records && OnlineKey(u) in answers.records[r.addr]
       && answers.records[r.addr][OnlineKey(u)].route.Some?
    then answers.records[r.addr][OnlineKey(u)].route.value
    else ""
  }

  predicate LostAt(r: Request, answers: Answers, j: nat) {
    j < |r.acks| && match ResponseOf(answers, r.addr)
                    case Results(results) => j < |results| && results[j] == NotFound
                    case _ => false
  }

  /** The acknowledgement goes out to this address, or is tried here if that is this server's. */
  predicate GoesTo(a: Ack, addr: Addr, here: Addr, again: seq<Request>, back: seq<Ack>) {
    if addr == here then a in back else exists i :: 0 <= i < |again| && again[i].addr == addr && a in again[i].acks
  }

  /** Whatever the request was answered not_found for goes to where its sender is now. */
  predicate AllSentAgain(r: Request, answers: Answers, here: Addr, again: seq<Request>, back: seq<Ack>) {
    forall j :: 0 <= j < |r.acks| && LostAt(r, answers, j) && AddrNow(answers, r, r.acks[j].fromUid) != "" ==>
      GoesTo(r.acks[j], AddrNow(answers, r, r.acks[j].fromUid), here, again, back)
  }

  lemma LostIsListed(r: Request, answers: Answers, j: nat)
    requires LostAt(r, answers, j)
    ensures r.acks[j] in LostOf(r, answers) && r.acks[j].fromUid in FromUids(LostOf(r, answers))
  {
    var results, lost := ResponseOf(answers, r.addr).results, LostOf(r, answers);
    LostPicks(r.acks, results);
    Picked(r.acks, lost, LostPlaces(r.acks, results), j);
    hide Lost, Picks, FromUids;
    var k :| 0 <= k < |lost| && lost[k] == r.acks[j];
    FromUidsMeans(lost, r.acks[j].fromUid);
  }

  /** A request that succeeds loses nothing for good whose sender has an address by now. */
  lemma NotFoundIsSentAgain(r: Request, answers: Answers, here: Addr, again: seq<Request>, back: seq<Ack>)
    requires Succeeds(r, answers) && SecondRound(r, answers, here, again, back)
    ensures AllSentAgain(r, answers, here, again, back)
  {
    hide LostOf, For, FromUids, Lost, Served;
    forall j | 0 <= j < |r.acks| && LostAt(r, answers, j) && AddrNow(answers, r, r.acks[j].fromUid) != ""
      ensures GoesTo(r.acks[j], AddrNow(answers, r, r.acks[j].fromUid), here, again, back)
    {
      LostIsListed(r, answers, j);
      ListedIsSent(r, answers, here, again, back, r.acks[j]);
    }
  }

  lemma ListedIsSent(r: Request, answers: Answers, here: Addr, again: seq<Request>, back: seq<Ack>, a: Ack)
    requires Succeeds(r, answers) && SecondRound(r, answers, here, again, back) && AddrNow(answers, r, a.fromUid) != ""
    requires a in LostOf(r, answers) && a.fromUid in FromUids(LostOf(r, answers))
    ensures GoesTo(a, AddrNow(answers, r, a.fromUid), here, again, back)
  {
    hide LostOf, For, FromUids, Lost;
    var lost, owners, addr := LostOf(r, answers), NowOf(r, answers).value, AddrNow(answers, r, a.fromUid);
    assert a.fromUid in owners && owners[a.fromUid] == addr;
    ForIsDest(lost, owners, here, DestOf(owners, here, a));
    if addr != here {
      assert a in For(lost, owners, here, Remote(addr));
      var i :| 0 <= i < |again| && again[i].addr == addr;
      assert a in again[i].acks;
    }
  }

  lemma SentAgainStays(r: Request, answers: Answers, here: Addr, again: seq<Request>, back: seq<Ack>,
                       more: seq<Request>, home: seq<Ack>)
    requires AllSentAgain(r, answers, here, again, back) || AllSentAgain(r, answers, here, more, home)
    ensures AllSentAgain(r, answers, here, again + more, back + home)
  {
    hide LostAt, AddrNow;
    forall j | 0 <= j < |r.acks| && LostAt(r, answers, j) && AddrNow(answers, r, r.acks[j].fromUid) != ""
      ensures GoesTo(r.acks[j], AddrNow(answers, r, r.acks[j].fromUid), here, again + more, back + home)
    {
      GoesStays(r.acks[j], AddrNow(answers, r, r.acks[j].fromUid), here, again, back, more, home);
    }
  }

  lemma GoesStays(a: Ack, addr: Addr, here: Addr, again: seq<Request>, back: seq<Ack>, more: seq<Request>,
                  home: seq<Ack>)
    requires GoesTo(a, addr, here, again, back) || GoesTo(a, addr, here, more, home)
    ensures GoesTo(a, addr, here, again + more, back + home)
  {
    var all := again + more;
    if addr != here {
      if GoesTo(a, addr, here, again, back) {
        var i :| 0 <= i < |again| && again[i].addr == addr && a in again[i].acks;
        assert all[i] == again[i];
      } else {
        var i :| 0 <= i < |more| && more[i].addr == addr && a in more[i].acks;
        assert all[|again| + i] == more[i];
      }
    }
  }

  /** The same for every request of a round that succeeds. */
  predicate Resent(sent: seq<Request>, answers: Answers, here: Addr, again: seq<Request>, back: seq<Ack>) {
    forall i :: 0 <= i < |sent| && Succeeds(sent[i], answers) ==> AllSentAgain(sent[i], answers, here, again, back)
  }

  lemma ResentSnoc(sent: seq<Request>, r: Request, answers: Answers, here: Addr, again: seq<Request>, back: seq<Ack>,
                   more: seq<Request>, home: seq<Ack>)
    requires Resent(sent, answers, here, again, back)
    requires SecondRound(r, answers, here, more, home)
    ensures Resent(sent + [r], answers, here, again + more, back + home)
  {
    hide AllSentAgain, Succeeds, SecondRound;
    var all := sent + [r];
    forall i | 0 <= i < |all| && Succeeds(all[i], answers)
      ensures AllSentAgain(all[i], answers, here, again + more, back + home)
    {
      if i == |sent| {
        NotFoundIsSentAgain(r, answers, here, more, home);
      }
      SentAgainStays(all[i], answers, here, again, back, more, home);
    }
  }

  /** The second round so far is exactly what the requests sent so far leave to be tried again. */
  ghost predicate Accounted(sent: seq<Request>, answers: Answers, here: Addr, again: seq<Request>, back: seq<Ack>) {
    Carried(again) + multiset(back) == Retried(sent, answers, here) && Resent(sent, answers, here, again, back)
  }

  lemma RetriedSnoc(sent: seq<Request>, r: Request, answers: Answers, here: Addr, again: seq<Request>, back: seq<Ack>,
                    more: seq<Request>, home: seq<Ack>)
    requires Accounted(sent, answers, here, again, back) && SecondRound(r, answers, here, more, home)
    ensures Accounted(sent + [r], answers, here, again + more, back + home)
  {
    hide Resent, SecondRound, RetriedOf;
    SecondRoundIsRetried(r, answers, here, more, home);
    ResentSnoc(sent, r, answers, here, again, back, more, home);
    CarriedJoin(again, more);
    assert (sent + [r])[..|sent|] == sent;
  }

  function LostOnes(acks: seq<Ack>, results: seq<Result>, a: Ack): set<nat> {
    set j: nat | j < |acks| && j < |results| && results[j] == NotFound && acks[j] == a
  }

  lemma LostOnesMore(acks: seq<Ack>, results: seq<Result>, a: Ack)
    requires acks != []
    ensures var k := |acks| - 1;
      |LostOnes(acks, results, a)| ==
        |LostOnes(acks[..k], results, a)| + if k < |results| && results[k] == NotFound && acks[k] == a then 1 else 0
  {
    var k := |acks| - 1;
    var here := k < |results| && results[k] == NotFound && acks[k] == a;
    assert LostOnes(acks, results, a) == LostOnes(acks[..k], results, a) + if here then {k} else {};
  }

  lemma {:induction false} LostMore(acks: seq<Ack>, results: seq<Result>)
    requires acks != []
    ensures var k := |acks| - 1;
      Lost(acks, results) ==
        if k < |results| && results[k] == NotFound then Lost(acks[..k], results) + [acks[k]] else Lost(acks[..k], results)
  {
  }

  lemma {:induction false} LostCounts(acks: seq<Ack>, results: seq<Result>, a: Ack)
    ensures multiset(Lost(acks, results))[a] == |LostOnes(acks, results, a)|
  {
    if acks != [] {
      var k := |acks| - 1;
      hide Lost, LostOnes;
      LostCounts(acks[..k], results, a);
      LostOnesMore(acks, results, a);
      LostMore(acks, results);
      SnocCount(Lost(acks[..k], results), acks[k], a);
    }
  }

  lemma NowIsKnown(r: Request, answers: Answers, here: Addr, a: Ack)
    requires NowOf(r, answers).Some? && a in LostOf(r, answers)
    ensures DestOf(NowOf(r, answers).value, here, a) == Nowhere <==> AddrNow(answers, r, a.fromUid) == ""
  {
    hide LostOf;
    var lost := LostOf(r, answers);
    var k :| 0 <= k < |lost| && lost[k] == a;
    FromUidsMeans(lost, a.fromUid);
  }

  /** An acknowledgement is tried again once for each time the request was answered not_found for it, if
      the second look-up works and finds an address for its sender, and else not at all. */
  lemma RetriedCounts(r: Request, answers: Answers, here: Addr, a: Ack)
    ensures RetriedOf(r, answers, here)[a] ==
      if NowOf(r, answers) == None || AddrNow(answers, r, a.fromUid) == "" then 0
      else |set j: nat | j < |r.acks| && LostAt(r, answers, j) && r.acks[j] == a|
  {
    hide LostOf, NowOf, For, LostAt, AddrNow, DestOf;
    var lost, now := LostOf(r, answers), NowOf(r, answers);
    LostOfCounts(r, answers, a);
    if now.Some? {
      ForCounts(lost, now.value, here, Nowhere, a);
      if a in lost {
        NowIsKnown(r, answers, here, a);
      }
    }
  }

  lemma LostOfCounts(r: Request, answers: Answers, a: Ack)
    ensures multiset(LostOf(r, answers))[a] == |set j: nat | j < |r.acks| && LostAt(r, answers, j) && r.acks[j] == a|
  {
    var places := set j: nat | j < |r.acks| && LostAt(r, answers, j) && r.acks[j] == a;
    match ResponseOf(answers, r.addr)
    case Results(results) =>
      LostCounts(r.acks, results, a);
      assert places == LostOnes(r.acks, results, a);
    case _ =>
      assert places == {};
  }

  /** Some request carried the acknowledgement and was answered not_found for it. */
  ghost predicate WasNotFound(requests: seq<Request>, answers: Answers, a: Ack) {
    exists i, j :: 0 <= i < |requests| && 0 <= j < |requests[i].acks| && requests[i].acks[j] == a
      && ResponseOf(answers, requests[i].addr).Results?
      && j < |ResponseOf(answers, requests[i].addr).results|
      && ResponseOf(answers, requests[i].addr).results[j] == NotFound
  }

  lemma {:induction false} LostMeans(acks: seq<Ack>, results: seq<Result>, a: Ack)
    requires a in Lost(acks, results)
    ensures exists j :: 0 <= j < |acks| && acks[j] == a && j < |results| && results[j] == NotFound
  {
    var k := |acks| - 1;
    if a in Lost(acks[..k], results) {
      LostMeans(acks[..k], results, a);
      var j :| 0 <= j < k && acks[..k][j] == a && j < |results| && results[j] == NotFound;
      assert acks[j] == a;
    }
  }

  lemma {:induction false} RetriedMeans(requests: seq<Request>, answers: Answers, here: Addr, a: Ack)
    ensures Retried(requests, answers, here) <= Carried(requests)
    ensures a in Retried(requests, answers, here) ==> WasNotFound(requests, answers, a)
  {
    if requests != [] {
      var k, r := |requests| - 1, requests[|requests| - 1];
      RetriedMeans(requests[..k], answers, here, a);
      RetriedOfMeans(r, answers, here, a);
      if a in Retried(requests[..k], answers, here) {
        var i, j :| 0 <= i < k && 0 <= j < |requests[..k][i].acks| && requests[..k][i].acks[j] == a
          && ResponseOf(answers, requests[..k][i].addr).Results?
          && j < |ResponseOf(answers, requests[..k][i].addr).results|
          && ResponseOf(answers, requests[..k][i].addr).results[j] == NotFound;
        assert requests[i] == requests[..k][i];
      } else if a in RetriedOf(r, answers, here) {
        var j :| 0 <= j < |r.acks| && r.acks[j] == a && j < |ResponseOf(answers, r.addr).results|
          && ResponseOf(answers, r.addr).results[j] == NotFound;
        assert requests[k].acks[j] == a;
      }
    }
  }

  lemma RetriedOfMeans(r: Request, answers: Answers, here: Addr, a: Ack)
    ensures RetriedOf(r, answers, here) <= multiset(r.acks)
    ensures a in RetriedOf(r, answers, here) ==>
      ResponseOf(answers, r.addr).Results? &&
      exists j :: 0 <= j < |r.acks| && r.acks[j] == a && j < |ResponseOf(answers, r.addr).results|
        && ResponseOf(answers, r.addr).results[j] == NotFound
  {
    match ResponseOf(answers, r.addr)
    case Results(results) =>
      LostAreAcks(r.acks, results);
      if a in RetriedOf(r, answers, here) {
        assert a in multiset(LostOf(r, answers));
        LostMeans(r.acks, results, a);
      }
    case _ =>
  }

  /** Over a whole dispatch no acknowledgement is relayed more than twice, and whatever goes out, or is
      tried here, a second time was answered not_found the first time. */
  lemma {:induction false} RelayedAtMostTwice(acks: seq<Ack>, owners: map<Uid, Addr>, here: Addr, answers: Answers,
                           sent: seq<Request>, again: seq<Request>, back: seq<Ack>)
    requires Round(sent, acks, owners, here)
    requires Carried(again) + multiset(back) == Retried(sent, answers, here)
    ensures Carried(sent) + Carried(again) <= multiset(acks) + multiset(acks)
    ensures Carried(again) + multiset(back) <= Carried(sent) <= multiset(acks)
    ensures forall a :: a in Carried(again) || a in back ==> WasNotFound(sent, answers, a)
  {
    RoundIsWithin(sent, acks, owners, here);
    forall a
      ensures Retried(sent, answers, here) <= Carried(sent)
      ensures a in Carried(again) || a in back ==> WasNotFound(sent, answers, a)
    {
      RetriedMeans(sent, answers, here, a);
      assert a in back ==> a in multiset(back);
      assert a in Carried(again) || a in back ==> a in Carried(again) + multiset(back);
    }
  }

  // ---------------------------------------------------------------- the dispatcher

  ghost predicate Grouped(acks: seq<Ack>, owners: map<Uid, Addr>, here: Addr, local: seq<Ack>, remote: map<Addr,
                          seq<Ack>>) {
    && local == For(acks, owners, here, Local)
    && (forall addr :: addr in remote <==> For(acks, owners, here, Remote(addr)) != [])
    && (forall addr :: addr in remote ==> remote[addr] == For(acks, owners, here, Remote(addr)))
  }

  lemma NothingGrouped(owners: map<Uid, Addr>, here: Addr)
    ensures Grouped([], owners, here, [], map[])
  {
  }

  lemma GroupedSnoc(acks: seq<Ack>, a: Ack, owners: map<Uid, Addr>, here: Addr, local: seq<Ack>, remote: map<Addr,
                    seq<Ack>>)
    requires Grouped(acks, owners, here, local, remote)
    ensures match DestOf(owners, here, a)
      case Nowhere => Grouped(acks + [a], owners, here, local, remote)
      case Local => Grouped(acks + [a], owners, here, local + [a], remote)
      case Remote(addr) =>
        Grouped(acks + [a], owners, here, local, remote[addr := (if addr in remote then remote[addr] else []) + [a]])
  {
    forall d {
      ForSnoc(acks, a, owners, here, d);
    }
    hide For;
  }

  class Dispatcher {
    const here: Addr
    const keepsOnline: bool     // false in local mode, without online records
    const hasRelayer: bool
    var locals: seq<Ack>        // first-round attempts to queue on this server
    var first: seq<Request>     // first-round requests
    var localRetries: seq<Ack>
    var second: seq<Request>    // retries

    constructor (here: Addr, keepsOnline: bool, hasRelayer: bool)
      ensures this.here == here && this.keepsOnline == keepsOnline && this.hasRelayer == hasRelayer
      ensures locals == [] && first == [] && localRetries == [] && second == []
    {
      this.here, this.keepsOnline, this.hasRelayer := here, keepsOnline, hasRelayer;
      locals, first, localRetries, second := [], [], [], [];
    }

    /** The rows of the users' keys, decoded one by one; the first that does not decode is an error. */
    method GetMany(records: Option<Table>, us: seq<Uid>) returns (owners: Option<map<Uid, Addr>>)
      ensures owners == LookUp(records, us)
    {
      if records == None {
        return None;
      }
      var t := records.value;
      var rows := map u | u in us && OnlineKey(u) in t :: OnlineKey(u);
      var found: map<Uid, Addr> := map[];
      var left := rows.Keys;
      while left != {}
        invariant left <= rows.Keys && found.Keys == rows.Keys - left
        invariant forall u :: u in found ==>
          t[OnlineKey(u)].route.Some? && found[u] == t[OnlineKey(u)].route.value
        decreases |left|
      {
        var u :| u in left;
        var row := t[rows[u]];
        if row.route == None {
          return None;
        }
        found := found[u := row.route.value];
        left := left - {u};
      }
      assert found == Owners(t, us);
      owners := Some(found);
    }

    /** Split a batch: what is for this server, and what is for each other one. */
    method Group(acks: seq<Ack>, owners: map<Uid, Addr>) returns (local: seq<Ack>, remote: map<Addr, seq<Ack>>)
      ensures Grouped(acks, owners, here, local, remote)
    {
      hide Grouped;
      local, remote := [], map[];
      NothingGrouped(owners, here);
      for i := 0 to |acks|
        invariant Grouped(acks[..i], owners, here, local, remote)
      {
        var a := acks[i];
        assert acks[..i + 1] == acks[..i] + [a];
        GroupedSnoc(acks[..i], a, owners, here, local, remote);
        if a.fromUid !in owners || owners[a.fromUid] == "" {
        } else if owners[a.fromUid] == here {
          local := local + [a];
        } else {
          var addr := owners[a.fromUid];
          remote := remote[addr := (if addr in remote then remote[addr] else []) + [a]];
        }
      }
      assert acks[..|acks|] == acks;
    }

    /** One request to one server, and one more try for what it does not find. Without a relayer
        nothing is sent. */
    method Forward(addr: Addr, acks: seq<Ack>, answers: Answers)
      returns (ok: bool, ghost again: seq<Request>, ghost back: seq<Ack>)
      modifies this`first, this`second, this`localRetries
      ensures !hasRelayer ==> ok && first == old(first) && again == [] && back == []
      ensures hasRelayer ==>
        && first == old(first) + [Request(addr, acks)]
        && ok == Succeeds(Request(addr, acks), answers)
        && SecondRound(Request(addr, acks), answers, here, again, back)
      ensures second == old(second) + again && localRetries == old(localRetries) + back
    {
      again, back := [], [];
      if !hasRelayer {
        return true, again, back;
      }
      first := first + [Request(addr, acks)];
      var response := ResponseOf(answers, addr);
      if response == Failed {
        return false, again, back;
      }
      if response == Nothing {
        return true, again, back;
      }
      var lost: seq<Ack> := [];
      for i := 0 to |acks|
        invariant lost == Lost(acks[..i], response.results)
      {
        assert acks[..i + 1][..i] == acks[..i];
        if i < |response.results| && response.results[i] == NotFound {
          lost := lost + [acks[i]];
        }
      }
      assert acks[..|acks|] == acks;
      assert lost == LostOf(Request(addr, acks), answers);
      if lost == [] {
        return true, again, back;
      }
      var uids := UniqueFromUids(lost);
      LookUpOnce(RecordsOf(answers, addr), FromUids(lost));
      var now := GetMany(RecordsOf(answers, addr), uids);
      if now == None {
        return false, again, back;
      }
      hide Lost, LookUp, FirstOccurrences, FromUids;
      var local, remote := Group(lost, now.value);
      localRetries := localRetries + local;
      var requests := SendAll(remote);
      second := second + requests;
      RequestsAreRound(requests, remote, lost, now.value);
      ok, again, back := true, requests, local;
    }

    lemma RequestsAreRound(requests: seq<Request>, remote: map<Addr, seq<Ack>>, acks: seq<Ack>, owners: map<Uid, Addr>)
      requires exists local :: Grouped(acks, owners, here, local, remote)
      requires forall i :: 0 <= i < |requests| ==> requests[i].addr in remote && requests[i].acks == remote[requests[i].addr]
      requires forall i, j :: 0 <= i < j < |requests| ==> requests[i].addr != requests[j].addr
      requires forall addr :: addr in remote ==> Served(requests, addr)
      ensures WholeRound(requests, acks, owners, here)
    {
    }

    /** One request per address, in the arbitrary order of a map. */
    method SendAll(remote: map<Addr, seq<Ack>>) returns (requests: seq<Request>)
      ensures forall i :: 0 <= i < |requests| ==> requests[i].addr in remote && requests[i].acks == remote[requests[i].addr]
      ensures forall i, j :: 0 <= i < j < |requests| ==> requests[i].addr != requests[j].addr
      ensures forall addr :: addr in remote ==> Served(requests, addr)
    {
      requests := [];
      var left := remote.Keys;
      while left != {}
        invariant left <= remote.Keys
        invariant forall i :: 0 <= i < |requests| ==>
          requests[i].addr in remote && requests[i].addr !in left && requests[i].acks == remote[requests[i].addr]
        invariant forall i, j :: 0 <= i < j < |requests| ==> requests[i].addr != requests[j].addr
        invariant forall addr :: addr in remote && addr !in left ==> Served(requests, addr)
        decreases |left|
      {
        var addr :| addr in left;
        forall x {
          ServedSnoc(requests, Request(addr, remote[addr]), x);
        }
        requests := requests + [Request(addr, remote[addr])];
        left := left - {addr};
      }
    }

    /** A batch: the local attempts, then one request per server until one fails. Without online
        records everything is tried here; when a sender's record does not decode, nothing is. */
    method Dispatch(acks: seq<Ack>, records: Option<Table>, answers: Answers)
      returns (ok: bool, ghost sent: seq<Request>, ghost again: seq<Request>, ghost back: seq<Ack>)
      modifies this
      ensures first == old(first) + sent && second == old(second) + again && localRetries == old(localRetries) + back
      ensures !keepsOnline ==> ok && locals == old(locals) + acks && sent == [] && again == [] && back == []
      ensures keepsOnline && acks != [] && LookUp(records, FromUids(acks)) == None ==>
        !ok && locals == old(locals) && sent == [] && again == [] && back == []
      ensures keepsOnline && LookUp(records, FromUids(acks)).Some? ==>
        var owners := LookUp(records, FromUids(acks)).value;
        && locals == old(locals) + For(acks, owners, here, Local)
        && Round(sent, acks, owners, here)
        && (hasRelayer && ok ==> WholeRound(sent, acks, owners, here))
        && (!hasRelayer ==> ok && sent == [])
        && (hasRelayer ==> (ok <==> forall addr :: For(acks, owners, here, Remote(addr)) != [] ==>
              Succeeds(Request(addr, For(acks, owners, here, Remote(addr))), answers)))
      ensures Carried(again) + multiset(back) == Retried(sent, answers, here)
      ensures Carried(sent) + Carried(again) <= multiset(acks) + multiset(acks)
      ensures forall a :: a in Carried(again) || a in back ==> WasNotFound(sent, answers, a)
      ensures Resent(sent, answers, here, again, back)
    {
      sent, again, back := [], [], [];
      NothingRetried(answers, here);
      if acks == [] {
        return true, sent, again, back;
      }
      if !keepsOnline {
        locals := locals + acks;
        return true, sent, again, back;
      }
      var uids := UniqueFromUids(acks);
      LookUpOnce(records, FromUids(acks));
      var owners := GetMany(records, uids);
      hide Lost, LookUp, FirstOccurrences, FromUids, Retried, Carried, WasNotFound, For, Round, WholeRound, Grouped,
           Succeeds,
           Served, DestOf, Owners, Undecodable, Resent;
      if owners == None {
        return false, sent, again, back;
      }
      var local, remote := Group(acks, owners.value);
      locals := locals + local;
      ok, sent, again, back := ForwardAll(remote, answers);
      RequestsAreSome(sent, remote, acks, owners.value);
      RemoteIsFor(remote, acks, owners.value, answers);
      RelayedAtMostTwice(acks, owners.value, here, answers, sent, again, back);
      if ok && hasRelayer {
        RequestsAreRound(sent, remote, acks, owners.value);
      }
    }

    lemma RemoteIsFor(remote: map<Addr, seq<Ack>>, acks: seq<Ack>, owners: map<Uid, Addr>, answers: Answers)
      requires exists local :: Grouped(acks, owners, here, local, remote)
      ensures (forall addr :: addr in remote ==> Succeeds(Request(addr, remote[addr]), answers)) <==>
        forall addr :: For(acks, owners, here, Remote(addr)) != [] ==>
          Succeeds(Request(addr, For(acks, owners, here, Remote(addr))), answers)
    {
      hide Succeeds, For;
    }

    lemma RequestsAreSome(requests: seq<Request>, remote: map<Addr, seq<Ack>>, acks: seq<Ack>, owners: map<Uid, Addr>)
      requires exists local :: Grouped(acks, owners, here, local, remote)
      requires forall i :: 0 <= i < |requests| ==> requests[i].addr in remote && requests[i].acks == remote[requests[i].addr]
      requires forall i, j :: 0 <= i < j < |requests| ==> requests[i].addr != requests[j].addr
      ensures Round(requests, acks, owners, here)
    {
    }

    /** One request per server, in the arbitrary order of a map, up to the first failure. */
    method ForwardAll(remote: map<Addr, seq<Ack>>, answers: Answers)
      returns (ok: bool, ghost sent: seq<Request>, ghost again: seq<Request>, ghost back: seq<Ack>)
      modifies this`first, this`second, this`localRetries
      ensures first == old(first) + sent && second == old(second) + again && localRetries == old(localRetries) + back
      ensures forall i :: 0 <= i < |sent| ==> sent[i].addr in remote && sent[i].acks == remote[sent[i].addr]
      ensures forall i, j :: 0 <= i < j < |sent| ==> sent[i].addr != sent[j].addr
      ensures !hasRelayer ==> ok && sent == []
      ensures hasRelayer && ok ==> forall addr :: addr in remote ==> Served(sent, addr)
      ensures hasRelayer ==> (ok <==> forall addr :: addr in remote ==> Succeeds(Request(addr, remote[addr]), answers))
      ensures Accounted(sent, answers, here, again, back)
    {
      sent, again, back := [], [], [];
      NothingRetried(answers, here);
      hide Served, Succeeds, ResponseOf, RecordsOf, Lost, For, WholeRound, SecondRound, Accounted;
      var left := remote.Keys;
      while left != {}
        invariant left <= remote.Keys
        invariant first == old(first) + sent && second == old(second) + again && localRetries == old(localRetries) + back
        invariant forall i :: 0 <= i < |sent| ==>
          sent[i].addr in remote && sent[i].addr !in left && sent[i].acks == remote[sent[i].addr]
        invariant forall i, j :: 0 <= i < j < |sent| ==> sent[i].addr != sent[j].addr
        invariant !hasRelayer ==> sent == []
        invariant hasRelayer ==> forall addr :: addr in remote && addr !in left ==>
          Served(sent, addr) && Succeeds(Request(addr, remote[addr]), answers)
        invariant Accounted(sent, answers, here, again, back)
        decreases |left|
      {
        var addr :| addr in left;
        ghost var r := Request(addr, remote[addr]);
        forall x {
          ServedSnoc(sent, r, x);
        }
        ghost var more, home;
        ok, more, home := Forward(addr, remote[addr], answers);
        left := left - {addr};
        if hasRelayer {
          RetriedSnoc(sent, r, answers, here, again, back, more, home);
          sent := sent + [r];
        } else {
          assert again + [] == again && back + [] == back;
        }
        again, back := again + more, back + home;
        if !ok {
          return;
        }
      }
      ok := true;
    }
  }

  lemma {:induction false} NothingRetried(answers: Answers, here: Addr)
    ensures Retried([], answers, here) == multiset{} == Carried([]) && Accounted([], answers, here, [], [])
  {
  }

  // ---------------------------------------------------------------- distinct senders

  /** The first occurrences, in order. */
  function FirstOccurrences(us: seq<Uid>): seq<Uid> {
    if us == [] then []
    else
      var k := |us| - 1;
      FirstOccurrences(us[..k]) + if us[k] in us[..k] then [] else [us[k]]
  }

  lemma {:induction false} FirstOccurrencesMean(us: seq<Uid>)
    ensures forall u :: u in FirstOccurrences(us) <==> u in us
    ensures forall i, j :: 0 <= i < j < |FirstOccurrences(us)| ==> FirstOccurrences(us)[i] != FirstOccurrences(us)[j]
  {
    if us != [] {
      var k := |us| - 1;
      FirstOccurrencesMean(us[..k]);
      assert us == us[..k] + [us[k]];
    }
  }

  method UniqueFromUids(acks: seq<Ack>) returns (out: seq<Uid>)
    ensures out == FirstOccurrences(FromUids(acks))
  {
    var seen: set<Uid> := {};
    out := [];
    for i := 0 to |acks|
      invariant out == FirstOccurrences(FromUids(acks[..i]))
      invariant forall u :: u in seen <==> u in FromUids(acks[..i])
    {
      assert acks[..i + 1][..i] == acks[..i];
      var us := FromUids(acks[..i]);
      assert (us + [acks[i].fromUid])[..|us|] == us;
      if acks[i].fromUid !in seen {
        seen := seen + {acks[i].fromUid};
        out := out + [acks[i].fromUid];
      }
    }
    assert acks[..|acks|] == acks;
  }

  method UniqueStrings(us: seq<Uid>) returns (out: seq<Uid>)
    ensures out == FirstOccurrences(us)
  {
    var seen: set<Uid> := {};
    out := [];
    for i := 0 to |us|
      invariant out == FirstOccurrences(us[..i])
      invariant forall u :: u in seen <==> u in us[..i]
    {
      assert us[..i + 1][..i] == us[..i];
      if us[i] !in seen {
        seen := seen + {us[i]};
        out := out + [us[i]];
      }
    }
    assert us[..|us|] == us;
  }
}
