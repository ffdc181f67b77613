// The online:{uid} records against the connection tables of any number of chat servers. Each server
// handles its events one at a time, but every event is two steps, one on its own table and one on the
// shared record, and anything can happen in between.
module OnlineState {
  import opened Wrappers
  import opened Chat
  import opened OnlineKv
  import opened GhostSweep
  import opened Tables

  type Name = string  // the cs of a server

  /** What a server is in the middle of. */
  datatype Busy = Free | Putting(uid: Uid) | Deleting(uid: Uid)

  /** `users` maps a user to the number of his connection. `failed` are the users who are off the table
      and whose record could not be deleted when they left. */
  datatype Node = Node(up: bool, users: map<Uid, nat>, busy: Busy, failed: set<Uid>)

  datatype Cluster = Cluster(nodes: map<Name, Node>, online: map<Uid, OnlineValue>)

  datatype Event =
    | Boot(name: Name)
    | Connect(name: Name, uid: Uid, connection: nat)
    | PutDone(name: Name, addr: string, ok: bool)
    | Disconnect(name: Name, uid: Uid, connection: nat)  // a closed or an idle connection
    | DeleteDone(name: Name, ok: bool)
    | Crash(name: Name)
    | SweepDelete(uid: Uid, cs: Name)                    // the reconciler takes cs for dead
    | Scribble(uid: Uid, raw: string)                    // a record that does not decode

  /** The delete is conditional on the owner. */
  function WithoutOwner(online: map<Uid, OnlineValue>, u: Uid, cs: Name): map<Uid, OnlineValue> {
    if u in online && online[u].Route? && online[u].cs == cs then online - {u} else online
  }

  predicate Ready(c: Cluster, n: Name) {
    n in c.nodes && c.nodes[n].up && c.nodes[n].busy == Free
  }

  /** A crashed server does not come back under its old name. */
  predicate Enabled(c: Cluster, e: Event) {
    match e
    case Boot(n) => n !in c.nodes
    case Connect(n, _, _) => Ready(c, n)
    case PutDone(n, _, _) => n in c.nodes && c.nodes[n].up && c.nodes[n].busy.Putting?
    case Disconnect(n, _, _) => Ready(c, n)
    case DeleteDone(n, _) => n in c.nodes && c.nodes[n].up && c.nodes[n].busy.Deleting?
    case Crash(n) => n in c.nodes
    case SweepDelete(_, _) => true
    case Scribble(_, _) => true
  }

  function Next(c: Cluster, e: Event): Cluster
    requires Enabled(c, e)
  {
    match e
    case Boot(n) => c.(nodes := c.nodes[n := Node(true, map[], Free, {})])
    case Connect(n, u, conn) =>
      var node := c.nodes[n];
      c.(nodes := c.nodes[n := node.(users := node.users[u := conn], busy := Putting(u), failed := node.failed - {u})])
    case PutDone(n, addr, ok) =>
      var node := c.nodes[n];
      c.(nodes := c.nodes[n := node.(busy := Free)],
         online := if ok then c.online[node.busy.uid := Route(n, addr)] else c.online)
    case Disconnect(n, u, _) =>
      var node := c.nodes[n];
      c.(nodes := c.nodes[n := node.(users := node.users - {u}, busy := Deleting(u))])
    case DeleteDone(n, ok) =>
      var node := c.nodes[n];
      var u := node.busy.uid;
      c.(nodes := c.nodes[n := node.(busy := Free, failed := if ok then node.failed - {u} else node.failed + {u})],
         online := if ok then WithoutOwner(c.online, u, n) else c.online)
    case Crash(n) => c.(nodes := c.nodes[n := Node(false, map[], Free, {})])
    case SweepDelete(u, cs) => c.(online := WithoutOwner(c.online, u, cs))
    case Scribble(u, raw) => c.(online := c.online[u := Malformed(raw)])
  }

  // ---------------------------------------------------------------- a record implies a connection

  predicate Holds(node: Node, u: Uid) {
    !node.up || u in node.users || node.busy == Deleting(u) || u in node.failed
  }

  /** A record that names a server: the server holds the user, or is just removing him, or could not
      delete the record when it did, or has crashed. */
  ghost predicate Backed(c: Cluster) {
    forall u :: u in c.online && c.online[u].Route? ==>
      c.online[u].cs in c.nodes && Holds(c.nodes[c.online[u].cs], u)
  }

  /** A put is for a user the server still holds, a delete for one it does not; nobody is both on the
      table and among the failed. */
  predicate AttachedTo(node: Node) {
    && (node.busy.Putting? ==> node.busy.uid in node.users)
    && (node.busy.Deleting? ==> node.busy.uid !in node.users)
    && node.users.Keys !! node.failed
  }

  predicate Attached(c: Cluster) {
    forall n :: n in c.nodes ==> AttachedTo(c.nodes[n])
  }

  lemma EventKeepsBacked(c: Cluster, e: Event)
    requires Backed(c) && Attached(c) && Enabled(c, e)
    ensures Backed(Next(c, e)) && Attached(Next(c, e))
  {
  }

  /** No delete issued for one server removes a record owned by another: a server's record goes only
      by its own delete, by the reconciler's delete for that very server, or is overwritten. */
  lemma OnlyOwnerDeletes(c: Cluster, e: Event, u: Uid)
    requires Enabled(c, e) && u in c.online && c.online[u].Route?
    ensures var n, d := c.online[u].cs, Next(c, e).online;
      && (u !in d ==>
            || (e.DeleteDone? && e.name == n && c.nodes[n].busy == Deleting(u))
            || e == SweepDelete(u, n))
      && (u in d && d[u] != c.online[u] ==> e.PutDone? || e.Scribble?)
  {
  }

  function Run(c: Cluster, events: seq<Event>): Cluster
    requires Possible(c, events)
    decreases |events|, 1
  {
    if events == [] then c else Next(Run(c, events[..|events| - 1]), events[|events| - 1])
  }

  predicate Possible(c: Cluster, events: seq<Event>)
    decreases |events|, 0
  {
    events == [] ||
    (Possible(c, events[..|events| - 1]) && Enabled(Run(c, events[..|events| - 1]), events[|events| - 1]))
  }

  const NOBODY := Cluster(map[], map[])

  lemma {:induction false} RunKeepsBacked(events: seq<Event>)
    requires Possible(NOBODY, events)
    ensures Backed(Run(NOBODY, events)) && Attached(Run(NOBODY, events))
  {
    hide Enabled, Next;
    if events == [] {
      hide *;
      EmptyIsBacked();
    } else {
      hide Backed, Attached;
      var k := |events| - 1;
      RunKeepsBacked(events[..k]);
      EventKeepsBacked(Run(NOBODY, events[..k]), events[k]);
    }
  }

  lemma EmptyIsBacked()
    ensures Backed(Run(NOBODY, [])) && Attached(Run(NOBODY, []))
  {
  }

  // ---------------------------------------------------------------- after a sweep

  /** Nothing is going on. */
  predicate Quiet(c: Cluster) {
    forall n :: n in c.nodes ==> c.nodes[n].busy == Free
  }

  predicate Alive(c: Cluster, n: Name) {
    n in c.nodes && c.nodes[n].up
  }

  /** What a sweep that sees the servers as they are leaves of the records. */
  function Swept(c: Cluster): Cluster {
    c.(online := map u | u in c.online && (c.online[u].Route? ==> Alive(c, c.online[u].cs)) :: c.online[u])
  }

  function RecordOf(v: OnlineValue): Record {
    match v
    case Malformed(_) => Record(None, None, None)
    case Route(cs, addr) => Written(cs, addr)
  }

  lemma KeysDiffer(u: Uid, v: Uid)
    ensures OnlineKey(u) == OnlineKey(v) ==> u == v
    ensures HasPrefix(OnlineKey(u), ONLINE)
  {
    KvKeysApart("", "", u, v);
  }

  /** The rows a sweep walks over are the online records of users and nothing else. */
  lemma PrefixIsOnline(k: Key)
    ensures HasPrefix(k, ONLINE) <==> |k| >= 7 && k == OnlineKey(k[7..])
    ensures forall c: ConvId :: !HasPrefix(SeqKey(c), ONLINE)
  {
    if HasPrefix(k, ONLINE) {
      assert k == k[..7] + k[7..] && k[..7] == ONLINE;
    }
    forall c: ConvId
      ensures !HasPrefix(SeqKey(c), ONLINE)
    {
      assert SeqKey(c)[0] == 's';
    }
  }

  /** The records as rows of the kv table. */
  ghost predicate Stores(t: Table, online: map<Uid, OnlineValue>) {
    && (forall u :: u in online ==> OnlineKey(u) in t && t[OnlineKey(u)] == RecordOf(online[u]))
    && (forall k :: k in t && HasPrefix(k, ONLINE) ==> exists u :: u in online && k == OnlineKey(u))
  }

  function LiveNames(c: Cluster): set<Name> {
    set n | n in c.nodes && c.nodes[n].up
  }

  /** The paging reconciler, given the servers that are alive, leaves exactly the swept records in the
      table. */
  lemma SweepSweeps(c: Cluster, t: Table)
    requires Stores(t, c.online)
    ensures Stores(t - Removable(t, Doomed(t, LiveNames(c), {})), Swept(c).online)
  {
    var gone, after := Removable(t, Doomed(t, LiveNames(c), {})), Swept(c).online;
    forall u | u in c.online
      ensures OnlineKey(u) in gone <==> u !in after
    {
      KeysDiffer(u, u);
      OnlineKeysAreAhead(OnlineKey(u));
    }
    forall k | k in t - gone && HasPrefix(k, ONLINE)
      ensures exists u :: u in after && k == OnlineKey(u)
    {
      var u :| u in c.online && k == OnlineKey(u);
      assert u in after;
    }
  }

  /** After any run, once everything has come to rest and a sweep with the true live set has passed,
      every record that decodes names a live server, and that server holds the user exactly when its
      last delete for him did not fail. */
  lemma {:induction false} SweptIsTrue(events: seq<Event>)
    requires Possible(NOBODY, events) && Quiet(Run(NOBODY, events))
    ensures var c := Swept(Run(NOBODY, events));
      forall u :: u in c.online && c.online[u].Route? ==>
        Alive(c, c.online[u].cs) &&
        (u in c.nodes[c.online[u].cs].users <==> u !in c.nodes[c.online[u].cs].failed)
  {
    hide Run, Possible;
    RunKeepsBacked(events);
  }
}
