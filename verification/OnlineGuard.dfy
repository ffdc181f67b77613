// When a connected user stays in the table of his server and in the online records: the check that
// EventUnregister does not make, and what goes wrong without it.
module OnlineGuard {
  import opened Wrappers
  import opened Chat
  import opened OnlineState

  // ---------------------------------------------------------------- the table entry

  function Entry(c: Cluster, n: Name, u: Uid): Option<nat> {
    if n in c.nodes && u in c.nodes[n].users then Some(c.nodes[n].users[u]) else None
  }

  predicate TakesOff(e: Event, n: Name, u: Uid, connection: Option<nat>) {
    e.Disconnect? && e.name == n && e.uid == u && connection == Some(e.connection)
  }

  /** The connection of the user that was registered last and has not been taken off itself. */
  function Newest(c: Cluster, events: seq<Event>, n: Name, u: Uid): Option<nat> {
    if events == [] then Entry(c, n, u)
    else
      var before, e := Newest(c, events[..|events| - 1], n, u), events[|events| - 1];
      if e == Boot(n) || e == Crash(n) then None
      else if e.Connect? && e.name == n && e.uid == u then Some(e.connection)
      else if TakesOff(e, n, u, before) then None
      else before
  }

  /** A removal of the user's connection that is not the one in the table. */
  predicate TakesAnother(c: Cluster, e: Event, n: Name, u: Uid) {
    e.Disconnect? && e.name == n && e.uid == u && Entry(c, n, u) != None && Entry(c, n, u) != Some(e.connection)
  }

  /** Has a removal of an older connection taken the user off since he last connected? */
  predicate Lost(c: Cluster, events: seq<Event>, n: Name, u: Uid)
    requires Possible(c, events)
  {
    events != [] &&
    var es, e := events[..|events| - 1], events[|events| - 1];
    if e == Boot(n) || e == Crash(n) || (e.Connect? && e.name == n && e.uid == u) then false
    else TakesAnother(Run(c, es), e, n, u) || (Lost(c, es, n, u) && !TakesOff(e, n, u, Newest(c, es, n, u)))
  }

  lemma EntryStep(c: Cluster, e: Event, n: Name, u: Uid)
    requires Enabled(c, e)
    ensures Entry(Next(c, e), n, u) ==
      if e == Boot(n) || e == Crash(n) then None
      else if e.Connect? && e.name == n && e.uid == u then Some(e.connection)
      else if e.Disconnect? && e.name == n && e.uid == u then None
      else Entry(c, n, u)
  {
  }

  /** In every run from anywhere: the table holds the user's newest connection unless it is lost. */
  lemma {:induction false} EntryIsNewest(c: Cluster, events: seq<Event>, n: Name, u: Uid)
    requires Possible(c, events)
    ensures Entry(Run(c, events), n, u) == if Lost(c, events, n, u) then None else Newest(c, events, n, u)
    ensures Lost(c, events, n, u) ==> Newest(c, events, n, u).Some?
  {
    hide Enabled, Next, Entry;
    if events != [] {
      var k := |events| - 1;
      EntryIsNewest(c, events[..k], n, u);
      EntryStep(Run(c, events[..k]), events[k], n, u);
    }
  }

  predicate KeptAt(c: Cluster, events: seq<Event>, n: Name, u: Uid)
    requires Possible(c, events)
  {
    Entry(Run(c, events), n, u) == Newest(c, events, n, u)
  }

  /** Every removal of the user on the server was of the connection in the table. */
  predicate Guarded(c: Cluster, events: seq<Event>, n: Name, u: Uid)
    requires Possible(c, events)
  {
    events == [] ||
    (Guarded(c, events[..|events| - 1], n, u)
     && !TakesAnother(Run(c, events[..|events| - 1]), events[|events| - 1], n, u))
  }

  lemma {:induction false} PrefixIsPossible(c: Cluster, events: seq<Event>, i: nat)
    requires Possible(c, events) && i <= |events|
    ensures Possible(c, events[..i])
  {
    if i < |events| {
      PrefixIsPossible(c, events[..|events| - 1], i);
      assert events[..|events| - 1][..i] == events[..i];
    } else {
      assert events[..i] == events;
    }
  }

  ghost predicate AlwaysKept(c: Cluster, events: seq<Event>, n: Name, u: Uid) {
    forall i :: 0 <= i <= |events| ==> Possible(c, events[..i]) && KeptAt(c, events[..i], n, u)
  }

  lemma {:induction false} AlwaysKeptSnoc(c: Cluster, events: seq<Event>, n: Name, u: Uid)
    requires Possible(c, events) && events != []
    ensures AlwaysKept(c, events, n, u) <==> AlwaysKept(c, events[..|events| - 1], n, u) && KeptAt(c, events, n, u)
  {
    hide KeptAt, Possible;
    var es := events[..|events| - 1];
    assert events[..|events|] == events;
    assert forall i :: 0 <= i <= |es| ==> es[..i] == events[..i];
    if AlwaysKept(c, events, n, u) {
      forall i | 0 <= i <= |es|
        ensures Possible(c, es[..i]) && KeptAt(c, es[..i], n, u)
      {
        assert es[..i] == events[..i];
      }
    }
    if AlwaysKept(c, es, n, u) && KeptAt(c, events, n, u) {
      forall i | 0 <= i <= |events|
        ensures Possible(c, events[..i]) && KeptAt(c, events[..i], n, u)
      {
        if i <= |es| {
          assert es[..i] == events[..i];
        }
      }
    }
  }

  lemma {:induction false} KeptStep(c: Cluster, events: seq<Event>, n: Name, u: Uid)
    requires Possible(c, events) && events != [] && KeptAt(c, events[..|events| - 1], n, u)
    ensures KeptAt(c, events, n, u) <==> !TakesAnother(Run(c, events[..|events| - 1]), events[|events| - 1], n, u)
  {
    EntryStep(Run(c, events[..|events| - 1]), events[|events| - 1], n, u);
    hide Enabled, Next, Entry;
  }

  /** The missing check, exactly: at every moment of a run the table holds the user's newest connection
      if and only if each removal of him on that server was of the connection that the table held. */
  lemma {:induction false} GuardIsExact(c: Cluster, events: seq<Event>, n: Name, u: Uid)
    requires Possible(c, events)
    ensures AlwaysKept(c, events, n, u) <==> Guarded(c, events, n, u)
  {
    if events == [] {
      assert KeptAt(c, [], n, u);
      assert events[..0] == [];
    } else {
      var es := events[..|events| - 1];
      GuardIsExact(c, es, n, u);
      hide KeptAt, TakesAnother;
      AlwaysKeptSnoc(c, events, n, u);
      if AlwaysKept(c, es, n, u) {
        assert es[..|es|] == es;
        KeptStep(c, events, n, u);
      }
    }
  }

  // ---------------------------------------------------------------- the record

  predicate Names(online: map<Uid, OnlineValue>, u: Uid, n: Name) {
    u in online && online[u].Route? && online[u].cs == n
  }

  /** The server's puts succeed, the user connects to no other server, and nobody else touches his
      record. */
  predicate Undisturbed(events: seq<Event>, n: Name, u: Uid) {
    forall e :: e in events ==> Leaves(e, n, u)
  }

  predicate Leaves(e: Event, n: Name, u: Uid) {
    match e
    case Connect(m, v, _) => v == u ==> m == n
    case PutDone(m, _, ok) => m == n ==> ok
    case SweepDelete(v, m) => !(v == u && m == n)
    case Scribble(v, _) => v != u
    case _ => true
  }

  /** The user is on the server's table and in its record, or a put for him is under way. */
  predicate Follows(c: Cluster, n: Name, u: Uid) {
    && n in c.nodes && Attached(c)
    && (forall m :: m in c.nodes && m != n ==> c.nodes[m].busy != Putting(u))
    && (u in c.nodes[n].users && c.nodes[n].busy != Putting(u) ==> Names(c.online, u, n))
  }

  lemma EventFollows(c: Cluster, e: Event, n: Name, u: Uid)
    requires Follows(c, n, u) && Enabled(c, e) && Leaves(e, n, u)
    ensures Follows(Next(c, e), n, u)
  {
  }

  lemma {:induction false} RunFollows(c: Cluster, events: seq<Event>, n: Name, u: Uid)
    requires Follows(c, n, u) && Possible(c, events) && Undisturbed(events, n, u)
    ensures Follows(Run(c, events), n, u)
  {
    hide Follows, Enabled, Next, Leaves;
    if events != [] {
      RunFollows(c, events[..|events| - 1], n, u);
      EventFollows(Run(c, events[..|events| - 1]), events[|events| - 1], n, u);
    }
  }

  /** A user connects, in the middle of anything. From then on, as long as only his own connection is
      taken off, the puts of his server succeed, he connects nowhere else and nobody else touches his
      record: while he has a connection, the table holds the newest one, and, but for a put under
      way, his record names the server. */
  lemma {:induction false} UserStaysReachable(c: Cluster, connection: nat, events: seq<Event>, n: Name, u: Uid)
    requires Attached(c) && Enabled(c, Connect(n, u, connection))
    requires forall m :: m in c.nodes && m != n ==> c.nodes[m].busy != Putting(u)
    requires var d := Next(c, Connect(n, u, connection));
      Possible(d, events) && Guarded(d, events, n, u) && Undisturbed(events, n, u)
    ensures var d := Next(c, Connect(n, u, connection));
      var newest, node := Newest(d, events, n, u), Run(d, events).nodes;
      newest.Some? ==>
        && n in node && u in node[n].users && node[n].users[u] == newest.value
        && (node[n].busy == Putting(u) || Names(Run(d, events).online, u, n))
  {
    var d := Next(c, Connect(n, u, connection));
    assert Follows(d, n, u);
    hide Enabled, Next, Undisturbed, Guarded, Names, Run, Newest;
    RunFollows(d, events, n, u);
    GuardIsExact(d, events, n, u);
    assert events[..|events|] == events;
    assert KeptAt(d, events, n, u);
  }

  // ---------------------------------------------------------------- two runs that go wrong

  /** Server "a" with user "u" on the given connection, or without him. */
  function ServerA(connection: Option<nat>, busy: Busy, recorded: bool): Cluster {
    Cluster(map["a" := Node(true, if connection.Some? then map["u" := connection.value] else map[], busy, {})],
            if recorded then map["u" := Route("a", "x")] else map[])
  }

  /** The same without him after a delete that failed. */
  const LEFT_BEHIND := Cluster(map["a" := Node(true, map[], Free, {"u"})], map["u" := Route("a", "x")])

  lemma Connects(recorded: bool, before: Option<nat>, connection: nat)
    ensures Enabled(ServerA(before, Free, recorded), Connect("a", "u", connection))
    ensures Next(ServerA(before, Free, recorded), Connect("a", "u", connection)) ==
      ServerA(Some(connection), Putting("u"), recorded)
    ensures Enabled(ServerA(Some(connection), Putting("u"), recorded), PutDone("a", "x", true))
    ensures Next(ServerA(Some(connection), Putting("u"), recorded), PutDone("a", "x", true)) ==
      ServerA(Some(connection), Free, true)
  {
    var c := ServerA(before, Free, recorded);
    assert c.nodes["a"].users["u" := connection] == map["u" := connection];
    assert c.online["u" := Route("a", "x")] == map["u" := Route("a", "x")];
    SameNodes(Next(c, Connect("a", "u", connection)), ServerA(Some(connection), Putting("u"), recorded));
    var d := ServerA(Some(connection), Putting("u"), recorded);
    SameNodes(Next(d, PutDone("a", "x", true)), ServerA(Some(connection), Free, true));
  }

  lemma SameNodes(c: Cluster, d: Cluster)
    requires c.nodes.Keys == d.nodes.Keys == {"a"} && c.nodes["a"] == d.nodes["a"] && c.online == d.online
    ensures c == d
  {
    assert c.nodes == d.nodes;
  }

  lemma Disconnects(connection: nat, late: nat)
    ensures Enabled(ServerA(Some(connection), Free, true), Disconnect("a", "u", late))
    ensures Next(ServerA(Some(connection), Free, true), Disconnect("a", "u", late)) ==
      ServerA(None, Deleting("u"), true)
    ensures Enabled(ServerA(None, Deleting("u"), true), DeleteDone("a", true))
    ensures Next(ServerA(None, Deleting("u"), true), DeleteDone("a", true)) == ServerA(None, Free, false)
    ensures Enabled(ServerA(None, Deleting("u"), true), DeleteDone("a", false))
    ensures Next(ServerA(None, Deleting("u"), true), DeleteDone("a", false)) == LEFT_BEHIND
  {
    assert map["u" := connection] - {"u"} == map[];
    assert map["u" := Route("a", "x")] - {"u"} == map[];
    var c, d := ServerA(Some(connection), Free, true), ServerA(None, Deleting("u"), true);
    SameNodes(Next(c, Disconnect("a", "u", late)), d);
    assert Next(d, DeleteDone("a", true)).nodes["a"].failed == {};
    SameNodes(Next(d, DeleteDone("a", true)), ServerA(None, Free, false));
    assert Next(d, DeleteDone("a", false)).nodes["a"].failed == {"u"};
    SameNodes(Next(d, DeleteDone("a", false)), LEFT_BEHIND);
  }

  lemma {:induction false} Then(c: Cluster, es: seq<Event>, e: Event, d: Cluster)
    requires Possible(c, es) && Enabled(Run(c, es), e) && Next(Run(c, es), e) == d
    ensures Possible(c, es + [e]) && Run(c, es + [e]) == d
  {
    assert (es + [e])[..|es|] == es;
  }

  lemma Boots()
    ensures Possible(NOBODY, []) && Run(NOBODY, []) == NOBODY
    ensures Enabled(NOBODY, Boot("a")) && Next(NOBODY, Boot("a")) == ServerA(None, Free, false)
  {
  }

  /** A user reconnects to the same server before his old connection is taken off: the late removal
      takes the new connection and its record with it. */
  lemma ReconnectLosesUser()
    ensures var es := [Boot("a")] + [Connect("a", "u", 1)] + [PutDone("a", "x", true)] + [Connect("a", "u", 2)]
                      + [PutDone("a", "x", true)] + [Disconnect("a", "u", 1)] + [DeleteDone("a", true)];
      Possible(NOBODY, es) && "u" !in Run(NOBODY, es).nodes["a"].users && "u" !in Run(NOBODY, es).online
  {
    Boots();
    Connects(false, None, 1);
    Connects(true, Some(1), 2);
    Disconnects(2, 1);
    hide Possible, Run, Enabled, Next;
    var es := [Boot("a")];
    assert [] + es == es;
    Then(NOBODY, [], Boot("a"), ServerA(None, Free, false));
    Then(NOBODY, es, Connect("a", "u", 1), ServerA(Some(1), Putting("u"), false));
    es := es + [Connect("a", "u", 1)];
    Then(NOBODY, es, PutDone("a", "x", true), ServerA(Some(1), Free, true));
    es := es + [PutDone("a", "x", true)];
    Then(NOBODY, es, Connect("a", "u", 2), ServerA(Some(2), Putting("u"), true));
    es := es + [Connect("a", "u", 2)];
    Then(NOBODY, es, PutDone("a", "x", true), ServerA(Some(2), Free, true));
    es := es + [PutDone("a", "x", true)];
    Then(NOBODY, es, Disconnect("a", "u", 1), ServerA(None, Deleting("u"), true));
    es := es + [Disconnect("a", "u", 1)];
    Then(NOBODY, es, DeleteDone("a", true), ServerA(None, Free, false));
  }

  /** One delete that fails leaves a record that no sweep removes while the server lives, for a user it
      does not hold. */
  lemma FailedDeleteOutlivesSweep()
    ensures var es := [Boot("a")] + [Connect("a", "u", 1)] + [PutDone("a", "x", true)] + [Disconnect("a", "u", 1)]
                      + [DeleteDone("a", false)];
      && Possible(NOBODY, es) && Quiet(Run(NOBODY, es))
      && var c := Swept(Run(NOBODY, es));
         "u" in c.online && c.online["u"] == Route("a", "x") && Alive(c, "a") && "u" !in c.nodes["a"].users
  {
    Boots();
    Connects(false, None, 1);
    Disconnects(1, 1);
    hide Possible, Run, Enabled, Next;
    var es := [Boot("a")];
    assert [] + es == es;
    Then(NOBODY, [], Boot("a"), ServerA(None, Free, false));
    Then(NOBODY, es, Connect("a", "u", 1), ServerA(Some(1), Putting("u"), false));
    es := es + [Connect("a", "u", 1)];
    Then(NOBODY, es, PutDone("a", "x", true), ServerA(Some(1), Free, true));
    es := es + [PutDone("a", "x", true)];
    Then(NOBODY, es, Disconnect("a", "u", 1), ServerA(None, Deleting("u"), true));
    es := es + [Disconnect("a", "u", 1)];
    Then(NOBODY, es, DeleteDone("a", false), LEFT_BEHIND);
  }
}
