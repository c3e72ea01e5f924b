/** The connection registry of src/connections.js.

    The module-level `state` object becomes an immutable `Registry` value and
    every change to it is a transition function: `AddConnection` (the
    synchronous part of `addConnection` and `_connect`), `OnConnect` (the
    settling of `pool.connect()`), and `Terminate` (the `close` and `error`
    listeners). Pools are identified by a number handed out in creation
    order; the driver itself is not modelled, only what it reports. */
module Connections {
  import opened Values

  /** Identity of a pool object created by `new mssql.Connection(config)`. */
  type Pool = nat

  /** The fields of a configuration object that the registry reads, each as
      the text `Array.prototype.join` would print for it (`port` as its
      decimal digits); `None` is an absent, `null` or `undefined` field. */
  datatype Config = Config(
    name: Option<string>,
    host: Option<string>,
    server: Option<string>,
    user: Option<string>,
    database: Option<string>,
    domain: Option<string>,
    port: Option<string>)

  /** What a caller passes: nothing (`null` / `undefined`), a connection
      name as a string, or a configuration object. */
  datatype ConfigArg = NoConfig | NameRef(name: string) | ConfigObject(config: Config)

  /** The four maps of `state`, plus what the code keeps implicitly:
      `listeners` maps each pool whose `close` / `error` listeners are still
      attached to the name they captured, `connecting` maps each pool whose
      `connect()` has not settled to the name its callbacks captured, and
      `nextPool` is the identity the next created pool receives. */
  datatype Registry = Registry(
    pools: map<string, Pool>,
    connections: map<string, Pool>,
    configurations: map<string, Config>,
    aliases: map<string, string>,
    listeners: map<Pool, string>,
    connecting: map<Pool, string>,
    nextPool: Pool)

  /** The registry when the module is loaded. */
  function Init(): Registry {
    Registry(map[], map[], map[], map[], map[], map[], 0)
  }

  const AliasSeparator: char := '-'
  const DefaultName: string := "default"

  /** A configuration object none of whose fields is set. */
  const EmptyConfig: Config := Config(None, None, None, None, None, None, None)

  /** `m[k]` read as JavaScript does: an absent key reads as a falsy value,
      written here as the empty string. */
  function Lookup(m: map<string, string>, k: string): (v: string)
    ensures k in m ==> v == m[k]
    ensures k !in m ==> v == ""
  {
    if k in m then m[k] else ""
  }

  /** `!!m[k]`: the key is bound to a truthy (non-empty) name. */
  predicate Bound(m: map<string, string>, k: string) {
    Lookup(m, k) != ""
  }

  /** How `join` prints a field: absent fields print as the empty string. */
  function Printed(o: Option<string>): string {
    if o.Some? then o.value else ""
  }

  /** `config.host || config.server`. */
  function HostOrServer(c: Config): Option<string> {
    if Truthy(c.host) then c.host else c.server
  }

  // ---------------------------------------------------------------------
  // Join and split

  /** `parts.join([sep])`. */
  function Join(sep: char, parts: seq<string>): string
    decreases |parts|
  {
    if |parts| == 0 then ""
    else if |parts| == 1 then parts[0]
    else parts[0] + [sep] + Join(sep, parts[1..])
  }

  /** Splits `s` at every occurrence of `sep`; the inverse of `Join` on
      parts that do not contain `sep`. */
  function Split(sep: char, s: string): (parts: seq<string>)
    ensures |parts| >= 1
    decreases |s|
  {
    if |s| == 0 then [""]
    else
      var rest := Split(sep, s[1..]);
      if s[0] == sep then [""] + rest else [[s[0]] + rest[0]] + rest[1..]
  }

  lemma {:induction false} SplitWithoutSeparator(sep: char, w: string)
    requires sep !in w
    ensures Split(sep, w) == [w]
    decreases |w|
  {
    if |w| > 0 {
      SplitWithoutSeparator(sep, w[1..]);
      assert [w[0]] + w[1..] == w;
    }
  }

  lemma {:induction false} SplitAtFirstSeparator(sep: char, w: string, t: string)
    requires sep !in w
    ensures Split(sep, w + [sep] + t) == [w] + Split(sep, t)
    decreases |w|
  {
    var s := w + [sep] + t;
    if |w| == 0 {
      assert s[1..] == t;
    } else {
      assert s[1..] == w[1..] + [sep] + t;
      SplitAtFirstSeparator(sep, w[1..], t);
      assert [w[0]] + w[1..] == w;
    }
  }

  /** Splitting a join gives back the parts, when no part contains the separator. */
  lemma {:induction false} SplitJoin(sep: char, parts: seq<string>)
    requires |parts| >= 1
    requires forall i :: 0 <= i < |parts| ==> sep !in parts[i]
    ensures Split(sep, Join(sep, parts)) == parts
    decreases |parts|
  {
    if |parts| == 1 {
      SplitWithoutSeparator(sep, parts[0]);
    } else {
      SplitJoin(sep, parts[1..]);
      SplitAtFirstSeparator(sep, parts[0], Join(sep, parts[1..]));
    }
  }

  lemma {:induction false} JoinHasSeparators(sep: char, parts: seq<string>)
    requires |parts| >= 2
    ensures sep in Join(sep, parts)
  {
    var s := Join(sep, parts);
    assert s[|parts[0]|] == sep;
  }

  // ---------------------------------------------------------------------
  // Name and alias derivation

  /** The five fields `_getAlias` joins, in order. */
  function AliasFields(c: Config): seq<string> {
    [Printed(HostOrServer(c)), Printed(c.user), Printed(c.database), Printed(c.domain), Printed(c.port)]
  }

  /** `_getAlias`: the physical identity of a configuration. */
  function GetAlias(c: Config): (alias: string)
    ensures AliasSeparator in alias
  {
    JoinHasSeparators(AliasSeparator, AliasFields(c));
    Join(AliasSeparator, AliasFields(c))
  }

  /** The alias is a faithful encoding of the five fields whenever none of
      them contains the separator: splitting it gives them back. */
  lemma AliasRoundTrip(c: Config)
    requires forall i :: 0 <= i < 5 ==> AliasSeparator !in AliasFields(c)[i]
    ensures Split(AliasSeparator, GetAlias(c)) == AliasFields(c)
  {
    SplitJoin(AliasSeparator, AliasFields(c));
  }

  /** Hence two separator-free configurations share an alias exactly when
      they agree on host-or-server, user, database, domain and port. */
  lemma AliasIdentifiesEndpoint(c1: Config, c2: Config)
    requires forall i :: 0 <= i < 5 ==> AliasSeparator !in AliasFields(c1)[i]
    requires forall i :: 0 <= i < 5 ==> AliasSeparator !in AliasFields(c2)[i]
    ensures GetAlias(c1) == GetAlias(c2) <==> AliasFields(c1) == AliasFields(c2)
  {
    AliasRoundTrip(c1);
    AliasRoundTrip(c2);
  }

  /** Without that condition the alias is ambiguous: host `a-b` with user
      `c` and host `a` with user `b-c` print the same alias. */
  lemma AliasCollision()
    ensures var c1 := EmptyConfig.(host := Some("a-b"), user := Some("c"));
            var c2 := EmptyConfig.(host := Some("a"), user := Some("b-c"));
            GetAlias(c1) == GetAlias(c2) && AliasFields(c1) != AliasFields(c2)
  {
    var c1 := EmptyConfig.(host := Some("a-b"), user := Some("c"));
    var c2 := EmptyConfig.(host := Some("a"), user := Some("b-c"));
    assert GetAlias(c1) == "a-b-c---" == GetAlias(c2);
    assert AliasFields(c1)[0] != AliasFields(c2)[0];
  }

  /** `_getAlias` of a string argument: a string has none of the fields. */
  function AliasOf(arg: ConfigArg): string
    requires !arg.NoConfig?
  {
    if arg.NameRef? then GetAlias(EmptyConfig) else GetAlias(arg.config)
  }

  /** `_getName`: the name a connection is stored or looked up under. */
  function GetName(arg: ConfigArg, configurations: map<string, Config>): (name: string)
    ensures arg.NoConfig? ==> name == DefaultName
    ensures arg.NameRef? ==> name == arg.name
    ensures arg.ConfigObject? && Truthy(arg.config.name) ==> name == arg.config.name.value
    ensures arg.ConfigObject? && !Truthy(arg.config.name) ==>
              name == (if DefaultName in configurations then GetAlias(arg.config) else DefaultName)
  {
    match arg
    case NoConfig => DefaultName
    case NameRef(n) => n
    case ConfigObject(c) =>
      if Truthy(c.name) then c.name.value
      else if DefaultName in configurations then GetAlias(c)
      else DefaultName
  }

  /** The `config.server = config.host` rewrite of `addConnection`. */
  function NormalizeHost(arg: ConfigArg): (r: ConfigArg)
    ensures arg.ConfigObject? && Truthy(arg.config.host) ==>
              r == ConfigObject(arg.config.(server := arg.config.host))
    ensures !(arg.ConfigObject? && Truthy(arg.config.host)) ==> r == arg
  {
    if arg.ConfigObject? && Truthy(arg.config.host) then ConfigObject(arg.config.(server := arg.config.host))
    else arg
  }

  /** The rewrite does not change a configuration's identity: the server the
      driver sees is the host whenever one is given, and the name and alias
      derived from the rewritten configuration are those of the original. */
  lemma NormalizePreservesIdentity(arg: ConfigArg, configurations: map<string, Config>)
    requires !arg.NoConfig?
    ensures var r := NormalizeHost(arg);
      && !r.NoConfig?
      && (r.ConfigObject? ==> HostOrServer(r.config) == r.config.server || !Truthy(r.config.host))
      && GetName(r, configurations) == GetName(arg, configurations)
      && AliasOf(r) == AliasOf(arg)
  {
  }

  // ---------------------------------------------------------------------
  // Transitions

  /** The synchronous effect of `addConnection(arg)`: the registry after it,
      the name and pool the pending `connect()` captured, and the
      configuration handed to the driver. */
  datatype Opening = Opening(registry: Registry, name: string, pool: Pool, driverConfig: ConfigArg)

  /** `addConnection`: bind the alias if it is new, normalise the host,
      create the pool, attach its listeners, store it in `pools`, and start
      connecting. A `null` argument throws in `_getAlias`, so it is excluded. */
  function AddConnection(reg: Registry, arg: ConfigArg): (o: Opening)
    requires !arg.NoConfig?
    ensures o.name == GetName(arg, reg.configurations)
    ensures o.driverConfig == NormalizeHost(arg)
    ensures o.pool == reg.nextPool && o.registry.nextPool > o.pool
    ensures o.registry.pools == reg.pools[o.name := o.pool]
    ensures o.registry.connections == reg.connections
    ensures o.registry.configurations == reg.configurations
    ensures o.registry.listeners == reg.listeners[o.pool := o.name]
    ensures o.registry.connecting == reg.connecting[o.pool := o.name]
    // The alias table is first-writer-wins.
    ensures Bound(reg.aliases, AliasOf(arg)) || o.name == AliasOf(arg) ==> o.registry.aliases == reg.aliases
    ensures !Bound(reg.aliases, AliasOf(arg)) && o.name != AliasOf(arg) ==>
              o.registry.aliases == reg.aliases[AliasOf(arg) := o.name]
  {
    var name := GetName(arg, reg.configurations);
    var alias := AliasOf(arg);
    var aliases := if name != alias && !Bound(reg.aliases, alias) then reg.aliases[alias := name] else reg.aliases;
    var pool := reg.nextPool;
    var registry := Registry(
      reg.pools[name := pool],
      reg.connections,
      reg.configurations,
      aliases,
      reg.listeners[pool := name],
      reg.connecting[pool := name],
      pool + 1);
    Opening(registry, name, pool, NormalizeHost(arg))
  }

  /** What `pool.connect()` settled with. */
  datatype ConnectOutcome = Connected | ConnectFailed(error: Error)

  /** A registry change, with what the promise returned by `addConnection`
      settled with (`None` when nothing settled). */
  datatype Transition = Transition(registry: Registry, settled: Option<Result<Pool, Error>>)

  /** The settling of `pool.connect()`. On success the pool is stored in
      `connections` under the captured name and returned; on failure the
      listeners are detached, the name leaves both `connections` and `pools`,
      and the driver's error is propagated unchanged. The alias binding made
      by `addConnection` stays either way. A connect promise settles once: for
      a pool that is not connecting nothing happens. */
  function OnConnect(reg: Registry, pool: Pool, outcome: ConnectOutcome): (t: Transition)
    ensures pool !in reg.connecting ==> t == Transition(reg, None)
    ensures pool in reg.connecting ==> pool !in t.registry.connecting && t.settled.Some?
    ensures pool in reg.connecting ==> t.registry.connecting == reg.connecting - {pool}
    ensures t.registry.aliases == reg.aliases && t.registry.configurations == reg.configurations
    ensures t.registry.nextPool == reg.nextPool
    ensures pool in reg.connecting && outcome.Connected? ==>
              var name := reg.connecting[pool];
              && t.settled == Some(Ok(pool))
              && t.registry.connections == reg.connections[name := pool]
              && t.registry.pools == reg.pools
              && t.registry.listeners == reg.listeners
              && (name in reg.pools && reg.pools[name] == pool ==> t.registry.pools[name] == t.registry.connections[name])
    ensures pool in reg.connecting && outcome.ConnectFailed? ==>
              var name := reg.connecting[pool];
              && t.settled == Some(Err(outcome.error))
              && name !in t.registry.connections && name !in t.registry.pools
              && t.registry.connections == reg.connections - {name}
              && t.registry.pools == reg.pools - {name}
              && t.registry.listeners == reg.listeners - {pool}
  {
    if pool !in reg.connecting then Transition(reg, None)
    else
      var name := reg.connecting[pool];
      var connecting := reg.connecting - {pool};
      match outcome
      case Connected =>
        Transition(reg.(connections := reg.connections[name := pool], connecting := connecting), Some(Ok(pool)))
      case ConnectFailed(e) =>
        Transition(
          reg.(listeners := reg.listeners - {pool},
               connections := reg.connections - {name},
               pools := reg.pools - {name},
               connecting := connecting),
          Some(Err(e)))
  }

  /** The `close` and `error` listeners (identical bodies): detach the
      listeners and remove the captured name from `connections` and `pools`.
      Nothing else changes. For a pool whose listeners are gone the registry
      is left unchanged. */
  function Terminate(reg: Registry, pool: Pool): (r: Registry)
    ensures pool !in reg.listeners ==> r == reg
    ensures pool in reg.listeners ==>
              var name := reg.listeners[pool];
              && r.connections.Keys == reg.connections.Keys - {name}
              && r.pools.Keys == reg.pools.Keys - {name}
              && (forall n :: n in r.connections ==> r.connections[n] == reg.connections[n])
              && (forall n :: n in r.pools ==> r.pools[n] == reg.pools[n])
              && r.listeners == reg.listeners - {pool}
              && r.aliases == reg.aliases && r.configurations == reg.configurations
              && r.connecting == reg.connecting && r.nextPool == reg.nextPool
  {
    if pool !in reg.listeners then reg
    else
      var name := reg.listeners[pool];
      reg.(listeners := reg.listeners - {pool},
           connections := reg.connections - {name},
           pools := reg.pools - {name})
  }

  /** Handling a close or error event twice is the same as handling it once. */
  lemma TerminateIdempotent(reg: Registry, pool: Pool)
    ensures Terminate(Terminate(reg, pool), pool) == Terminate(reg, pool)
  {
  }

  /** `getConnection`: resolve the name, follow one alias, and return the
      stored connection, or fail at once when none is stored. */
  function GetConnection(reg: Registry, arg: ConfigArg): (r: Result<Pool, Error>)
    ensures var name := GetName(arg, reg.configurations);
            var resolved := if Bound(reg.aliases, name) then reg.aliases[name] else name;
            && (r.Ok? <==> resolved in reg.connections)
            && (r.Ok? ==> r.value == reg.connections[resolved])
            && (r.Err? ==> r.error == NotFound(resolved))
  {
    var name := GetName(arg, reg.configurations);
    var resolved := if Bound(reg.aliases, name) then reg.aliases[name] else name;
    if resolved in reg.connections then Ok(reg.connections[resolved]) else Err(NotFound(resolved))
  }

  /** The error `getConnection` throws. */
  function NotFound(name: string): Error {
    Error("Connection with name \"" + name + "\" does not exist.")
  }

  /** Alias indirection is one level deep: a name bound to a name that is
      itself bound is looked up under the first target. */
  lemma AliasOneLevel(reg: Registry, a: string)
    requires Bound(reg.aliases, a) && Bound(reg.aliases, reg.aliases[a])
    requires reg.aliases[a] in reg.connections
    ensures GetConnection(reg, NameRef(a)) == Ok(reg.connections[reg.aliases[a]])
  {
  }

  // ---------------------------------------------------------------------
  // Runs of events and what they preserve

  datatype Event =
    | Add(arg: ConfigArg)
    | ConnectSettled(pool: Pool, outcome: ConnectOutcome)
    | Close(pool: Pool)
    | PoolError(pool: Pool, error: Error)

  /** An event sequence whose `addConnection` calls all have an argument. */
  predicate Legal(events: seq<Event>) {
    forall i :: 0 <= i < |events| ==> !(events[i].Add? && events[i].arg.NoConfig?)
  }

  function Apply(reg: Registry, e: Event): Registry
    requires !(e.Add? && e.arg.NoConfig?)
  {
    match e
    case Add(arg) => AddConnection(reg, arg).registry
    case ConnectSettled(pool, outcome) => OnConnect(reg, pool, outcome).registry
    case Close(pool) => Terminate(reg, pool)
    case PoolError(pool, _) => Terminate(reg, pool)
  }

  function Run(reg: Registry, events: seq<Event>): Registry
    requires Legal(events)
    decreases |events|
  {
    if |events| == 0 then reg else Run(Apply(reg, events[0]), events[1..])
  }

  /** What holds of every registry reachable from `Init`:
      - `configurations` is never written, so it stays empty;
      - every alias key is a `_getAlias` result, which contains the separator;
      - every pool identity in use was handed out already, and a pool that is
        still connecting and still listening captured one name for both;
      - every pool in `pools` still has its listeners attached under the
        name it is stored under, so a close or error event on it evicts it. */
  ghost predicate Inv(reg: Registry) {
    && reg.configurations == map[]
    && (forall a :: a in reg.aliases ==> AliasSeparator in a)
    && (forall p :: p in reg.listeners ==> p < reg.nextPool)
    && (forall p :: p in reg.connecting ==> p < reg.nextPool)
    && (forall p :: p in reg.connecting && p in reg.listeners ==> reg.listeners[p] == reg.connecting[p])
    && (forall n :: n in reg.pools ==> reg.pools[n] in reg.listeners && reg.listeners[reg.pools[n]] == n)
  }

  lemma ApplyPreservesInv(reg: Registry, e: Event)
    requires !(e.Add? && e.arg.NoConfig?)
    requires Inv(reg)
    ensures Inv(Apply(reg, e))
  {
    match e
    case Add(arg) =>
      var o := AddConnection(reg, arg);
      assert AliasSeparator in AliasOf(arg);
      forall n | n in o.registry.pools
        ensures o.registry.pools[n] in o.registry.listeners && o.registry.listeners[o.registry.pools[n]] == n
      {
        if n != o.name {
          assert reg.pools[n] < reg.nextPool;
        }
      }
    case ConnectSettled(pool, outcome) =>
      var t := OnConnect(reg, pool, outcome);
      if pool in reg.connecting && outcome.ConnectFailed? {
        var name := reg.connecting[pool];
        forall n | n in t.registry.pools
          ensures t.registry.pools[n] in t.registry.listeners && t.registry.listeners[t.registry.pools[n]] == n
        {
          assert reg.listeners[reg.pools[n]] == n != name;
        }
      }
    case Close(pool) => TerminatePreservesInv(reg, pool);
    case PoolError(pool, _) => TerminatePreservesInv(reg, pool);
  }

  lemma TerminatePreservesInv(reg: Registry, pool: Pool)
    requires Inv(reg)
    ensures Inv(Terminate(reg, pool))
  {
    if pool in reg.listeners {
      var r := Terminate(reg, pool);
      forall n | n in r.pools
        ensures r.pools[n] in r.listeners && r.listeners[r.pools[n]] == n
      {
        assert reg.listeners[reg.pools[n]] == n;
      }
    }
  }

  /** Every registry reachable from `Init` satisfies `Inv`. */
  lemma {:induction false} RunPreservesInv(reg: Registry, events: seq<Event>)
    requires Legal(events) && Inv(reg)
    ensures Inv(Run(reg, events))
    decreases |events|
  {
    if |events| > 0 {
      ApplyPreservesInv(reg, events[0]);
      RunPreservesInv(Apply(reg, events[0]), events[1..]);
    }
  }

  lemma InitInv()
    ensures Inv(Init())
  {
  }

  /** The alias table is first-writer-wins over any run: once an alias is
      bound to a name, no later event rebinds or removes it. */
  lemma {:induction false} AliasesAreStable(reg: Registry, events: seq<Event>, a: string)
    requires Legal(events) && Bound(reg.aliases, a)
    ensures Lookup(Run(reg, events).aliases, a) == Lookup(reg.aliases, a)
    decreases |events|
  {
    if |events| > 0 {
      var next := Apply(reg, events[0]);
      assert Lookup(next.aliases, a) == Lookup(reg.aliases, a);
      AliasesAreStable(next, events[1..], a);
    }
  }

  /** Because `configurations` is never written, an object configuration
      without a name always resolves to "default": the alias branch of
      `_getName` cannot be reached. */
  lemma UnnamedConfigIsDefault(reg: Registry, c: Config)
    requires Inv(reg) && !Truthy(c.name)
    ensures GetName(ConfigObject(c), reg.configurations) == DefaultName
  {
  }

  /** Consequently looking up an unnamed configuration is looking up the
      default connection, whatever its host, user, database, domain and port:
      no alias is consulted that could lead to a connection registered under
      an explicit name. */
  lemma UnnamedLookupIgnoresEndpoint(reg: Registry, c: Config)
    requires Inv(reg) && !Truthy(c.name)
    ensures GetConnection(reg, ConfigObject(c)) == GetConnection(reg, NoConfig)
  {
  }

  /** Registering a configuration and then resolving it yields the pool just
      connected, provided the name it is registered under is not itself an
      alias key (which, by `Inv`, any separator-free name is not). */
  lemma AddThenGet(reg: Registry, arg: ConfigArg)
    requires Inv(reg) && !arg.NoConfig?
    requires AliasSeparator !in GetName(arg, reg.configurations)
    ensures var o := AddConnection(reg, arg);
            var t := OnConnect(o.registry, o.pool, Connected);
            && t.settled == Some(Ok(o.pool))
            && GetConnection(t.registry, arg) == Ok(o.pool)
  {
    var o := AddConnection(reg, arg);
    ApplyPreservesInv(reg, Add(arg));
    var name := GetName(arg, reg.configurations);
    assert name !in o.registry.aliases;
  }

  /** A close event from an older pool evicts a newer pool registered under
      the same name: its listener captured only the name. */
  lemma StaleCloseEvictsReplacement()
    ensures var o1 := AddConnection(Init(), NameRef("db"));
            var o2 := AddConnection(o1.registry, NameRef("db"));
            var r := OnConnect(o2.registry, o2.pool, Connected).registry;
            && r.connections["db"] == o2.pool
            && "db" !in Terminate(r, o1.pool).connections
            && o2.pool in Terminate(r, o1.pool).listeners
  {
  }

  /** A failed reconnect under a name removes the working connection
      already stored under it. */
  lemma FailedReconnectEvictsLive(e: Error)
    ensures var o1 := AddConnection(Init(), NameRef("db"));
            var r1 := OnConnect(o1.registry, o1.pool, Connected).registry;
            var o2 := AddConnection(r1, NameRef("db"));
            var r2 := OnConnect(o2.registry, o2.pool, ConnectFailed(e)).registry;
            && r1.connections["db"] == o1.pool
            && "db" !in r2.connections
            && o1.pool in r2.listeners
  {
  }
}
