// The connection table of one chat server and the online records it writes: what the events of the
// manager's loop do, in the order in which they do it.
module ConnectionManager {
  import opened Wrappers
  import opened Chat
  import opened Tables
  import opened OnlineKv
  import GhostSweep
  import OnlineState

  type Time = nat

  /** A connection, told apart from the user's other ones by its number. */
  datatype Client = Client(uid: Uid, connection: nat, lastActive: Time)

  predicate IdleExceeded(lastActive: Time, now: Time, timeout: nat) {
    now as int - lastActive as int >= timeout as int
  }

  /** The rows after conditional deletes for one owner. */
  function WithoutAll(t: Table, us: set<Uid>, cs: string): Table {
    t - set u | u in us && OnlineKey(u) in t && t[OnlineKey(u)].field == Some(cs) :: OnlineKey(u)
  }

  lemma WithoutOneMore(t: Table, us: set<Uid>, u: Uid, cs: string)
    ensures WithoutMatch(WithoutAll(t, us, cs), OnlineKey(u), cs) == WithoutAll(t, us + {u}, cs)
  {
    var before, after := WithoutMatch(WithoutAll(t, us, cs), OnlineKey(u), cs), WithoutAll(t, us + {u}, cs);
    forall k
      ensures k in before <==> k in after
    {
    }
  }

  function UidsOf(clients: seq<Client>): set<Uid> {
    set c | c in clients :: c.uid
  }

  lemma OneMoreUid(clients: seq<Client>, c: Client)
    ensures UidsOf(clients + [c]) == UidsOf(clients) + {c.uid}
  {
    forall u | u in UidsOf(clients) + {c.uid}
      ensures u in UidsOf(clients + [c])
    {
      if u == c.uid {
        assert c in clients + [c];
      } else {
        var d :| d in clients && d.uid == u;
        assert d in clients + [c];
      }
    }
  }

  // ---------------------------------------------------------------- the manager as a server of the cluster

  function Connections(users: map<Uid, Client>): map<Uid, nat> {
    map u | u in users :: users[u].connection
  }

  /** The server cs of the cluster, between two events, has this table, and the records are these
      rows. */
  ghost predicate Shows(users: map<Uid, Client>, rows: Table, c: OnlineState.Cluster, cs: string) {
    && OnlineState.Ready(c, cs)
    && c.nodes[cs].users == Connections(users)
    && OnlineState.Stores(rows, c.online)
  }

  /** The two steps of a registration. */
  function Registered(c: OnlineState.Cluster, client: Client, cs: string, addr: string, ok: bool): OnlineState.Cluster
    requires OnlineState.Ready(c, cs)
  {
    OnlineState.Next(OnlineState.Next(c, OnlineState.Connect(cs, client.uid, client.connection)),
                     OnlineState.PutDone(cs, addr, ok))
  }

  /** The two steps of a removal. */
  function Unregistered(c: OnlineState.Cluster, client: Client, cs: string, ok: bool): OnlineState.Cluster
    requires OnlineState.Ready(c, cs)
  {
    OnlineState.Next(OnlineState.Next(c, OnlineState.Disconnect(cs, client.uid, client.connection)),
                     OnlineState.DeleteDone(cs, ok))
  }

  lemma PutStores(t: Table, online: map<Uid, OnlineValue>, u: Uid, cs: string, addr: string)
    requires OnlineState.Stores(t, online)
    ensures OnlineState.Stores(t[OnlineKey(u) := Written(cs, addr)], online[u := Route(cs, addr)])
  {
    var after, now := t[OnlineKey(u) := Written(cs, addr)], online[u := Route(cs, addr)];
    forall v | v in now
      ensures OnlineKey(v) in after && after[OnlineKey(v)] == OnlineState.RecordOf(now[v])
    {
      OnlineState.KeysDiffer(u, v);
    }
    forall k | k in after && HasPrefix(k, GhostSweep.ONLINE)
      ensures exists v :: v in now && k == OnlineKey(v)
    {
      if k == OnlineKey(u) {
        assert u in now;
      } else {
        var v :| v in online && k == OnlineKey(v);
        assert v in now;
      }
    }
  }

  lemma DeleteStores(t: Table, online: map<Uid, OnlineValue>, u: Uid, cs: string)
    requires OnlineState.Stores(t, online)
    ensures OnlineState.Stores(WithoutMatch(t, OnlineKey(u), cs), OnlineState.WithoutOwner(online, u, cs))
  {
    var after, now := WithoutMatch(t, OnlineKey(u), cs), OnlineState.WithoutOwner(online, u, cs);
    OnlineState.KeysDiffer(u, u);
    assert OnlineKey(u) in t ==> u in online by {
      if OnlineKey(u) in t {
        var v :| v in online && OnlineKey(u) == OnlineKey(v);
        OnlineState.KeysDiffer(u, v);
      }
    }
    forall v | v in now
      ensures OnlineKey(v) in after && after[OnlineKey(v)] == OnlineState.RecordOf(now[v])
    {
      OnlineState.KeysDiffer(u, v);
    }
    forall k | k in after && HasPrefix(k, GhostSweep.ONLINE)
      ensures exists v :: v in now && k == OnlineKey(v)
    {
      var v :| v in online && k == OnlineKey(v);
      assert v in now;
    }
  }

  /** EventRegister takes the server through Connect and PutDone. */
  lemma RegisterIsTwoSteps(users: map<Uid, Client>, rows: Table, c: OnlineState.Cluster, client: Client, cs: string,
                           addr: string, fails: bool)
    requires Shows(users, rows, c, cs)
    ensures Shows(users[client.uid := client], if fails then rows else rows[OnlineKey(client.uid) := Written(cs, addr)],
              Registered(c, client, cs, addr, !fails), cs)
  {
    PutStores(rows, c.online, client.uid, cs, addr);
    hide OnlineState.Stores;
    assert Connections(users[client.uid := client]) == Connections(users)[client.uid := client.connection];
  }

  /** EventUnregister takes it through Disconnect and DeleteDone, whatever connection is in the table. */
  lemma UnregisterIsTwoSteps(users: map<Uid, Client>, rows: Table, c: OnlineState.Cluster, client: Client, cs: string,
                             fails: bool)
    requires Shows(users, rows, c, cs)
    ensures Shows(users - {client.uid}, if fails then rows else WithoutMatch(rows, OnlineKey(client.uid), cs),
              Unregistered(c, client, cs, !fails), cs)
  {
    DeleteStores(rows, c.online, client.uid, cs);
    hide OnlineState.Stores, WithoutMatch;
    assert Connections(users - {client.uid}) == Connections(users) - {client.uid};
  }

  class Manager {
    var users: map<Uid, Client>
    const kv: KvTable
    const keepsOnline: bool  // false in local mode, without online records
    const cs: string
    const addr: string

    constructor (kv: KvTable, keepsOnline: bool, cs: string, addr: string)
      ensures this.kv == kv && this.keepsOnline == keepsOnline && this.cs == cs && this.addr == addr && users == map[]
    {
      this.kv, this.keepsOnline, this.cs, this.addr := kv, keepsOnline, cs, addr;
      users := map[];
    }

    ghost predicate Valid()
      reads this`users
    {
      forall u :: u in users ==> users[u].uid == u
    }

    /** The table first, then the record; an error of the write is only logged. */
    method EventRegister(client: Client, fails: bool)
      requires Valid()
      modifies this`users, kv
      ensures Valid() && users == old(users)[client.uid := client]
      ensures kv.rows == if keepsOnline && !fails then old(kv.rows)[OnlineKey(client.uid) := Written(cs, addr)]
                         else old(kv.rows)
      ensures forall c | keepsOnline && Shows(old(users), old(kv.rows), c, cs) ::
        Shows(users, kv.rows, Registered(c, client, cs, addr, !fails), cs)
    {
      forall c | keepsOnline && Shows(users, kv.rows, c, cs) {
        RegisterIsTwoSteps(users, kv.rows, c, client, cs, addr, fails);
      }
      hide Shows, Registered;
      users := users[client.uid := client];
      if keepsOnline && !fails {
        kv.Put(OnlineKey(client.uid), Written(cs, addr));
      }
    }

    /** Whatever connection the user has now goes off the table, then the record if it is still this
        server's. */
    method EventUnregister(client: Client, fails: bool)
      requires Valid()
      modifies this`users, kv
      ensures Valid() && users == old(users) - {client.uid}
      ensures kv.rows == if keepsOnline && !fails then WithoutMatch(old(kv.rows), OnlineKey(client.uid), cs)
                         else old(kv.rows)
      ensures forall c | keepsOnline && Shows(old(users), old(kv.rows), c, cs) ::
        Shows(users, kv.rows, Unregistered(c, client, cs, !fails), cs)
    {
      forall c | keepsOnline && Shows(users, kv.rows, c, cs) {
        UnregisterIsTwoSteps(users, kv.rows, c, client, cs, fails);
      }
      hide Shows, Unregistered;
      users := users - {client.uid};
      if keepsOnline && !fails {
        kv.DeleteIfMatch(OnlineKey(client.uid), cs);
      }
    }

    ghost function Idle(now: Time, timeout: nat): set<Uid>
      reads this`users
    {
      set u | u in users && users[u].lastActive + timeout <= now
    }

    method GetAllClients() returns (result: seq<Client>)
      requires Valid()
      ensures UidsOf(result) == users.Keys && forall c :: c in result ==> c.uid in users && users[c.uid] == c
    {
      result := [];
      NobodyThere();
      hide UidsOf;
      var left := users.Keys;
      while left != {}
        invariant left <= users.Keys && UidsOf(result) == users.Keys - left
        invariant forall c :: c in result ==> c.uid in users && users[c.uid] == c
        decreases |left|
      {
        var u :| u in left;
        OneMoreUid(result, users[u]);
        result := result + [users[u]];
        left := left - {u};
      }
    }

    /** Close every connection whose last sign of life is at least the timeout ago, and only those, and
        take them off; the closed connections are returned. */
    method CleanIdleClients(now: Time, timeout: nat, failing: set<Uid>) returns (kicked: seq<Client>)
      requires Valid()
      modifies this`users, kv
      ensures Valid()
      ensures forall u :: u in old(users) ==> (u !in users <==> old(users)[u].lastActive + timeout <= now)
      ensures var idle := old(Idle(now, timeout));
        && users == old(users) - idle && UidsOf(kicked) == idle
        && (forall c :: c in kicked ==> c.uid in old(users) && old(users)[c.uid] == c)
        && kv.rows == if keepsOnline then WithoutAll(old(kv.rows), idle - failing, cs) else old(kv.rows)
    {
      var clients := GetAllClients();
      IdleMeans(clients, now, timeout);
      ghost var rows, was := kv.rows, users;
      kicked := [];
      NobodyThere();
      assert WithoutAll(rows, {}, cs) == rows && was - {} == was && {} - failing == {};
      assert clients[..0] == [];
      hide WithoutAll, WithoutMatch, IdleExceeded, UidsOf, OnlineKey;
      for i := 0 to |clients|
        invariant Valid() && users == was - UidsOf(kicked) && kicked == IdleOf(clients[..i], now, timeout)
        invariant kv.rows == if keepsOnline then WithoutAll(rows, UidsOf(kicked) - failing, cs) else rows
      {
        assert clients[..i + 1][..i] == clients[..i];
        var client := clients[i];
        if IdleExceeded(client.lastActive, now, timeout) {
          WithoutOneMore(rows, UidsOf(kicked) - failing, client.uid, cs);
          OneMoreUid(kicked, client);
          Grow(was, UidsOf(kicked), client.uid, failing);
          EventUnregister(client, client.uid in failing);
          kicked := kicked + [client];
        }
      }
      assert clients[..|clients|] == clients;
    }

    lemma {:induction false} IdleMeans(clients: seq<Client>, now: Time, timeout: nat)
      requires UidsOf(clients) == users.Keys && forall c :: c in clients ==> c.uid in users && users[c.uid] == c
      ensures UidsOf(IdleOf(clients, now, timeout)) == Idle(now, timeout)
      ensures forall c :: c in IdleOf(clients, now, timeout) ==> c in clients
    {
      IdleOfMeans(clients, now, timeout);
      forall u | u in Idle(now, timeout)
        ensures u in UidsOf(IdleOf(clients, now, timeout))
      {
        assert u in UidsOf(clients);
        var c :| c in clients && c.uid == u;
        assert c in IdleOf(clients, now, timeout);
      }
    }
  }

  lemma Grow(was: map<Uid, Client>, gone: set<Uid>, u: Uid, failing: set<Uid>)
    ensures (was - gone) - {u} == was - (gone + {u})
    ensures (gone + {u}) - failing == if u in failing then gone - failing else (gone - failing) + {u}
  {
  }

  /** The idle ones among some connections. */
  function IdleOf(clients: seq<Client>, now: Time, timeout: nat): seq<Client>
  {
    if clients == [] then []
    else
      var k := |clients| - 1;
      IdleOf(clients[..k], now, timeout)
      + if IdleExceeded(clients[k].lastActive, now, timeout) then [clients[k]] else []
  }

  lemma {:induction false} IdleOfMeans(clients: seq<Client>, now: Time, timeout: nat)
    ensures forall c :: c in IdleOf(clients, now, timeout) <==> c in clients && IdleExceeded(c.lastActive, now, timeout)
  {
    if clients != [] {
      IdleOfMeans(clients[..|clients| - 1], now, timeout);
      assert clients == clients[..|clients| - 1] + [clients[|clients| - 1]];
    }
  }

  lemma NobodyThere()
    ensures UidsOf([]) == {}
  {
  }
}
