/**
 * The MySQL connection pool of the query function: a bounded list of pooled
 * connections, each with its in-use flag, the time it was last used and its
 * health flag. Clients are opaque ids handed out in allocation order; the
 * clock, the outcome of connecting and the outcome of the liveness probe are
 * parameters of the operations that consult them.
 */
module ConnectionPool {
  import opened Wrappers
  import Seqs

  // POOL_CONFIG
  const MaxConnections: nat := 5
  const ConnectionTimeout: nat := 30000
  const IdleTimeout: int := 300000
  const HealthCheckInterval: nat := 60000

  /** A MySQL client object, identified by the order in which it was allocated. */
  type ClientId = nat

  /** One pooled connection. */
  datatype Entry = Entry(client: ClientId, inUse: bool, lastUsed: int, isHealthy: bool)

  /** The outcome of one `getConnection` attempt. */
  datatype Acquire =
    | Acquired(client: ClientId)  // a client is lent to the caller
    | ConnectError                // `client.connect` failed and the error was rethrown
    | Exhausted                   // every entry is busy and the pool is full: the caller waits and retries

  /** The report of `getPoolStatus`. */
  datatype PoolStatus = PoolStatus(total: nat, inUse: nat, available: nat, unhealthy: nat)

  /** The predicate `getConnection` searches with. */
  predicate Available(e: Entry) {
    !e.inUse && e.isHealthy
  }

  /** `connections.find(conn => !conn.inUse && conn.isHealthy)`, as the index of the entry found. */
  function FindAvailable(s: seq<Entry>): (r: Option<nat>)
    ensures r.Some? ==> r.value < |s| && Available(s[r.value])
    ensures r.Some? ==> forall j :: 0 <= j < r.value ==> !Available(s[j])
    ensures r.None? ==> forall j :: 0 <= j < |s| ==> !Available(s[j])
  {
    if s == [] then None
    else if Available(s[0]) then Some(0)
    else match FindAvailable(s[1..])
      case None => None
      case Some(k) => Some(k + 1)
  }

  /** `connections.find(conn => conn.client === client)`, as the index of the entry found. */
  function FindClient(s: seq<Entry>, client: ClientId): (r: Option<nat>)
    ensures r.Some? ==> r.value < |s| && s[r.value].client == client
    ensures r.Some? ==> forall j :: 0 <= j < r.value ==> s[j].client != client
    ensures r.None? ==> forall j :: 0 <= j < |s| ==> s[j].client != client
  {
    if s == [] then None
    else if s[0].client == client then Some(0)
    else match FindClient(s[1..], client)
      case None => None
      case Some(k) => Some(k + 1)
  }

  /** No client is tracked twice. */
  predicate DistinctClients(s: seq<Entry>) {
    forall i, j :: 0 <= i < j < |s| ==> s[i].client != s[j].client
  }

  /**
   * What holds of the pool's list between operations: it is within the bound,
   * every entry is healthy, no client is tracked twice and every client was
   * allocated before `next`.
   */
  predicate PoolInvariant(s: seq<Entry>, next: nat) {
    && |s| <= MaxConnections
    && (forall i :: 0 <= i < |s| ==> s[i].isHealthy)
    && DistinctClients(s)
    && (forall i :: 0 <= i < |s| ==> s[i].client < next)
  }

  /** An idle entry that has not been used for longer than the idle timeout (strictly). */
  predicate IdleExpired(e: Entry, now: int) {
    !e.inUse && now - e.lastUsed > IdleTimeout
  }

  /** Whether one health-check sweep keeps `e`: busy entries always, idle ones if fresh and answering the probe. */
  predicate SweepKeeps(e: Entry, now: int, probe: ClientId -> bool) {
    e.inUse || (!IdleExpired(e, now) && probe(e.client))
  }

  /** A kept entry after the sweep: a probed (idle) one is marked healthy. */
  function Swept(e: Entry): Entry {
    if e.inUse then e else e.(isHealthy := true)
  }

  /** The list left by one health-check sweep that started on `s`. */
  function Sweep(s: seq<Entry>, now: int, probe: ClientId -> bool): seq<Entry> {
    if s == [] then []
    else (if SweepKeeps(s[0], now, probe) then [Swept(s[0])] else []) + Sweep(s[1..], now, probe)
  }

  function CountInUse(s: seq<Entry>): nat {
    if s == [] then 0 else (if s[0].inUse then 1 else 0) + CountInUse(s[1..])
  }

  function CountAvailable(s: seq<Entry>): nat {
    if s == [] then 0 else (if Available(s[0]) then 1 else 0) + CountAvailable(s[1..])
  }

  function CountUnhealthy(s: seq<Entry>): nat {
    if s == [] then 0 else (if !s[0].isHealthy then 1 else 0) + CountUnhealthy(s[1..])
  }

  /** Busy and available entries are disjoint kinds: together at most the list. */
  lemma {:induction false} CountsBounded(s: seq<Entry>)
    ensures CountInUse(s) + CountAvailable(s) + CountUnhealthy(s) >= |s|
    ensures CountInUse(s) + CountAvailable(s) <= |s|
    ensures CountUnhealthy(s) <= |s|
  {
    if s != [] {
      CountsBounded(s[1..]);
    }
  }

  /** In a list of healthy entries every idle entry is available and nothing is unhealthy. */
  lemma {:induction false} CountsAllHealthy(s: seq<Entry>)
    ensures (forall i :: 0 <= i < |s| ==> s[i].isHealthy) ==>
      CountUnhealthy(s) == 0 && CountInUse(s) + CountAvailable(s) == |s|
  {
    if s != [] {
      CountsAllHealthy(s[1..]);
    }
  }

  /** Every entry the sweep leaves is busy, or idle, not expired and answering the probe. */
  lemma {:induction false} SweepOnlyKeepsLive(s: seq<Entry>, now: int, probe: ClientId -> bool)
    ensures |Sweep(s, now, probe)| <= |s|
    ensures forall e :: e in Sweep(s, now, probe) ==> e.inUse || (!IdleExpired(e, now) && probe(e.client) && e.isHealthy)
    ensures forall e :: e in Sweep(s, now, probe) ==> exists d :: d in s && Swept(d) == e
  {
    if s != [] {
      SweepOnlyKeepsLive(s[1..], now, probe);
    }
  }

  /** No idle entry older than the idle timeout survives a sweep. */
  lemma SweepRemovesExpired(s: seq<Entry>, now: int, probe: ClientId -> bool)
    ensures forall e :: e in Sweep(s, now, probe) ==> !IdleExpired(e, now)
  {
    SweepOnlyKeepsLive(s, now, probe);
  }

  /** The busy entries survive a sweep unchanged and in their order. */
  lemma {:induction false} SweepKeepsInUse(s: seq<Entry>, now: int, probe: ClientId -> bool)
    ensures Seqs.Filter(Sweep(s, now, probe), (e: Entry) => e.inUse) == Seqs.Filter(s, (e: Entry) => e.inUse)
  {
    if s != [] {
      var inUse := (e: Entry) => e.inUse;
      var head := if SweepKeeps(s[0], now, probe) then [Swept(s[0])] else [];
      SweepKeepsInUse(s[1..], now, probe);
      Seqs.FilterConcat(head, Sweep(s[1..], now, probe), inUse);
    }
  }

  /** The probe is consulted only for idle entries: its answers for busy clients do not matter. */
  lemma {:induction false} SweepIgnoresBusyProbes(s: seq<Entry>, now: int, p: ClientId -> bool, q: ClientId -> bool)
    requires forall i :: 0 <= i < |s| && !s[i].inUse ==> p(s[i].client) == q(s[i].client)
    ensures Sweep(s, now, p) == Sweep(s, now, q)
  {
    if s != [] {
      SweepIgnoresBusyProbes(s[1..], now, p, q);
    }
  }

  /** A sweep keeps the pool invariant. */
  lemma {:induction false} SweepKeepsInvariant(s: seq<Entry>, next: nat, now: int, probe: ClientId -> bool)
    requires PoolInvariant(s, next)
    ensures PoolInvariant(Sweep(s, now, probe), next)
  {
    if s != [] {
      var rest := Sweep(s[1..], now, probe);
      SweepKeepsInvariant(s[1..], next, now, probe);
      SweepOnlyKeepsLive(s[1..], now, probe);
      var r := Sweep(s, now, probe);
      if SweepKeeps(s[0], now, probe) {
        assert r == [Swept(s[0])] + rest;
        forall j | 0 < j < |r| ensures r[0].client != r[j].client {
          assert r[j] in rest;
          var d :| d in s[1..] && Swept(d) == r[j];
        }
      } else {
        assert r == rest;
      }
    }
  }

  /** One step of the backward sweep: entry `i - 1` is the next one visited, in front of the part already swept. */
  lemma SweepStepShape(start: seq<Entry>, i: nat, now: int, probe: ClientId -> bool)
    requires 0 < i <= |start|
    ensures var list := start[..i] + Sweep(start[i..], now, probe);
      && list[..i - 1] == start[..i - 1] && list[i - 1] == start[i - 1] && list[i..] == Sweep(start[i..], now, probe)
    ensures Sweep(start[i - 1..], now, probe)
      == (if SweepKeeps(start[i - 1], now, probe) then [Swept(start[i - 1])] else []) + Sweep(start[i..], now, probe)
  {
    assert start[i - 1..][1..] == start[i..];
  }

  /** `connections[i] = y` on a list whose entry `i` is `x`. */
  lemma SetAt(pre: seq<Entry>, x: Entry, y: Entry, tail: seq<Entry>)
    ensures (pre + [x] + tail)[|pre| := y] == pre + [y] + tail
  {
  }

  /** The health-check loop: the entries visited from the back, each by `VisitEntry`. */
  method SweepList(start: seq<Entry>, now: int, probe: ClientId -> bool) returns (list: seq<Entry>)
    ensures list == Sweep(start, now, probe)
  {
    list := start;
    var i := |list|;
    while i > 0
      invariant 0 <= i <= |start|
      invariant list == start[..i] + Sweep(start[i..], now, probe)
    {
      SweepStepShape(start, i, now, probe);
      list := VisitEntry(list, i - 1, now, probe);
      i := i - 1;
    }
    assert start[0..] == start;
  }

  /**
   * The body of the health-check loop for entry `k`: an expired idle entry is
   * spliced out (its client closed); another idle entry is probed and marked
   * healthy, or marked unhealthy and spliced out; a busy entry is left alone.
   */
  method VisitEntry(list: seq<Entry>, k: nat, now: int, probe: ClientId -> bool) returns (r: seq<Entry>)
    requires k < |list|
    ensures r == list[..k] + (if SweepKeeps(list[k], now, probe) then [Swept(list[k])] else []) + list[k + 1..]
  {
    var conn := list[k];
    assert list == list[..k] + [conn] + list[k + 1..];
    r := list;
    if IdleExpired(conn, now) {
      // the client is closed; a failure to close is only logged
      r := r[..k] + r[k + 1..];
      SpliceOut(list[..k], conn, list[k + 1..]);
    } else if !conn.inUse {
      if probe(conn.client) {
        r := r[k := conn.(isHealthy := true)];
        SetAt(list[..k], conn, Swept(conn), list[k + 1..]);
      } else {
        r := r[k := conn.(isHealthy := false)];
        SetAt(list[..k], conn, conn.(isHealthy := false), list[k + 1..]);
        r := r[..k] + r[k + 1..];
        SpliceOut(list[..k], conn.(isHealthy := false), list[k + 1..]);
      }
    }
  }

  /** `splice(i, 1)` on a list whose entry `i` is `x`. */
  lemma SpliceOut(pre: seq<Entry>, x: Entry, tail: seq<Entry>)
    ensures var s := pre + [x] + tail; s[..|pre|] + s[|pre| + 1..] == pre + tail
  {
    var s := pre + [x] + tail;
    assert s[..|pre|] == pre;
    assert s[|pre| + 1..] == tail;
  }

  /** The MySQL connection pool: the list of pooled connections and the health-check timer. */
  class MySQLConnectionPool {
    var connections: seq<Entry>
    /** Whether the periodic health check (`healthCheckTimer`) is armed. */
    var healthCheckRunning: bool
    /** The id the next `new Client()` receives. */
    var nextClient: nat

    ghost predicate Valid()
      reads this
    {
      PoolInvariant(connections, nextClient)
    }

    /** A new pool is empty and starts its health-check timer. */
    constructor ()
      ensures Valid()
      ensures connections == [] && healthCheckRunning && nextClient == 0
    {
      connections := [];
      healthCheckRunning := true;
      nextClient := 0;
    }

    /**
     * `getConnection` (one attempt): reuse the first available entry, or open a
     * new connection while the pool is below its bound, or report exhaustion.
     */
    method GetConnection(now: int, connectOk: bool) returns (r: Acquire)
      requires Valid()
      modifies this
      ensures Valid() && healthCheckRunning == old(healthCheckRunning)
      ensures |connections| <= MaxConnections
      ensures FindAvailable(old(connections)).Some? ==>
        var k := FindAvailable(old(connections)).value;
        && r == Acquired(old(connections)[k].client)
        && connections == old(connections)[k := old(connections)[k].(inUse := true, lastUsed := now)]
        && nextClient == old(nextClient)
      ensures FindAvailable(old(connections)).None? && |old(connections)| < MaxConnections ==>
        && nextClient == old(nextClient) + 1
        && (connectOk ==> r == Acquired(old(nextClient)) && connections == old(connections) + [Entry(old(nextClient), true, now, true)])
        && (!connectOk ==> r == ConnectError && connections == old(connections))
      ensures FindAvailable(old(connections)).None? && |old(connections)| >= MaxConnections ==>
        r == Exhausted && connections == old(connections) && nextClient == old(nextClient)
    {
      var found := FindAvailable(connections);
      if found.Some? {
        var k := found.value;
        connections := connections[k := connections[k].(inUse := true, lastUsed := now)];
        r := Acquired(connections[k].client);
        return;
      }
      if |connections| < MaxConnections {
        var created := CreateConnection(now, connectOk);
        r := if created.Ok? then Acquired(created.value) else ConnectError;
        return;
      }
      r := Exhausted;
    }

    /**
     * `createConnection`: allocate a client and connect it; on success append
     * it, busy and healthy; on failure rethrow and leave the list alone.
     */
    method CreateConnection(now: int, connectOk: bool) returns (r: Result<ClientId>)
      requires Valid() && |connections| < MaxConnections
      modifies this
      ensures Valid() && healthCheckRunning == old(healthCheckRunning)
      ensures nextClient == old(nextClient) + 1
      ensures connectOk ==> r == Ok(old(nextClient)) && connections == old(connections) + [Entry(old(nextClient), true, now, true)]
      ensures !connectOk ==> r.Err? && connections == old(connections)
    {
      var client := nextClient;
      nextClient := nextClient + 1;
      if !connectOk {
        r := Err("Failed to create MySQL connection");
        return;
      }
      connections := connections + [Entry(client, true, now, true)];
      r := Ok(client);
    }

    /** `releaseConnection`: the entry holding `client` becomes idle, used at `now`; an unknown client is ignored. */
    method ReleaseConnection(client: ClientId, now: int)
      requires Valid()
      modifies this
      ensures Valid() && nextClient == old(nextClient) && healthCheckRunning == old(healthCheckRunning)
      ensures FindClient(old(connections), client).Some? ==>
        var k := FindClient(old(connections), client).value;
        connections == old(connections)[k := old(connections)[k].(inUse := false, lastUsed := now)]
      ensures FindClient(old(connections), client).None? ==> connections == old(connections)
    {
      var found := FindClient(connections, client);
      if found.Some? {
        var k := found.value;
        connections := connections[k := connections[k].(inUse := false, lastUsed := now)];
      }
    }

    /**
     * `healthCheck`: walk the list from the back; drop every idle entry past
     * the idle timeout, probe every other idle entry and drop it if the probe
     * fails; busy entries are neither probed nor dropped.
     */
    method HealthCheck(now: int, probe: ClientId -> bool)
      requires Valid()
      modifies this
      ensures Valid() && nextClient == old(nextClient) && healthCheckRunning == old(healthCheckRunning)
      ensures connections == Sweep(old(connections), now, probe)
    {
      ghost var start := connections;
      connections := SweepList(connections, now, probe);
      SweepKeepsInvariant(start, nextClient, now, probe);
    }

    /** `getAvailableCount`: the idle, healthy entries. */
    function GetAvailableCount(): (n: nat)
      reads this
      ensures n <= |connections|
      ensures Valid() ==> n == |connections| - CountInUse(connections)
    {
      CountsBounded(connections);
      CountsAllHealthy(connections);
      CountAvailable(connections)
    }

    /** `getPoolStatus`: the size of the list, the busy, the available and the unhealthy entries. */
    function GetPoolStatus(): (st: PoolStatus)
      reads this
      ensures st.total == |connections| && st.inUse == CountInUse(connections)
      ensures st.inUse + st.available <= st.total
      ensures Valid() ==> st.unhealthy == 0 && st.inUse + st.available == st.total
    {
      CountsBounded(connections);
      CountsAllHealthy(connections);
      PoolStatus(|connections|, CountInUse(connections), GetAvailableCount(), CountUnhealthy(connections))
    }

    /** `closeAll`: stop the health-check timer, close every client and empty the list. */
    method CloseAll()
      requires Valid()
      modifies this
      ensures Valid() && nextClient == old(nextClient)
      ensures connections == [] && !healthCheckRunning
    {
      healthCheckRunning := false;
      // each client is closed; a failure to close is only logged
      connections := [];
    }
  }

  /**
   * A client of the pool: five callers that never release fill it, a sixth
   * attempt finds it exhausted, and after one release the next caller reuses
   * the freed connection instead of opening another.
   */
  method ExhaustionScenario(now: int) returns (sixth: Acquire, afterRelease: Acquire, size: nat)
    ensures sixth == Exhausted
    ensures afterRelease == Acquired(2)
    ensures size == MaxConnections
  {
    var pool := new MySQLConnectionPool();
    var k := 0;
    while k < MaxConnections
      invariant pool.Valid() && 0 <= k <= MaxConnections
      invariant pool.nextClient == k && |pool.connections| == k
      invariant forall j :: 0 <= j < k ==> pool.connections[j] == Entry(j, true, now, true)
    {
      var held := pool.GetConnection(now, true);
      k := k + 1;
    }
    assert FindAvailable(pool.connections).None? by {
      forall j | 0 <= j < |pool.connections| ensures !Available(pool.connections[j]) {}
    }
    sixth := pool.GetConnection(now + 1, true);
    assert FindClient(pool.connections, 2) == Some(2) by {
      forall j | 0 <= j < 2 ensures pool.connections[j].client != 2 {}
    }
    pool.ReleaseConnection(2, now + 2);
    assert Available(pool.connections[2]);
    assert FindAvailable(pool.connections) == Some(2) by {
      forall j | 0 <= j < 2 ensures !Available(pool.connections[j]) {}
    }
    afterRelease := pool.GetConnection(now + 3, true);
    size := pool.GetPoolStatus().total;
  }
}
