/** The MCP manager's tables (cogtrix_core/mcp_client.py) and their mirror in the live tool registry
    (cogtrix_core/api/mcp_runtime.py), as values: what each operation does to them, and what every sequence
    of operations keeps. */
module McpMirror {
  import opened Options
  import opened McpNaming

  datatype Config = Config(name: string, confirm: bool, pin: bool)

  /** `connections` maps a connected server to the tools it offers; `serverOf` is `_tool_server_map`. */
  datatype Manager = Manager(
    connections: map<string, seq<RemoteTool>>, configs: map<string, Config>, serverOf: map<string, string>)

  datatype Entry = Builtin(id: int) | Mcp(wrapper: Wrapper)

  datatype Meta = BuiltinMeta(confirm: bool) | McpMeta(server: string, confirm: bool, pin: bool)

  datatype Registry = Registry(tools: map<string, Entry>, metadata: map<string, Meta>, pinned: set<string>)

  // ---------------------------------------------------------------------------------------------
  // The manager's operations
  // ---------------------------------------------------------------------------------------------

  /** The tools of one server, ready to be named. */
  function ServerItems(cfg: Config, tools: seq<RemoteTool>): seq<Item> {
    seq(|tools|, i requires 0 <= i < |tools| => Item(cfg.name, cfg.confirm, tools[i]))
  }

  /** The tools of the servers in `cfgs` that are connected, in order. */
  function AllItems(cfgs: seq<Config>, connections: map<string, seq<RemoteTool>>): seq<Item> {
    if cfgs == [] then []
    else
      var last := cfgs[|cfgs| - 1];
      AllItems(cfgs[..|cfgs| - 1], connections) +
      if last.name in connections then ServerItems(last, connections[last.name]) else []
  }

  /** The configured ones among the named servers. */
  function Targets(configs: map<string, Config>, names: seq<string>): seq<Config> {
    if names == [] then []
    else
      var last := names[|names| - 1];
      Targets(configs, names[..|names| - 1]) + if last in configs then [configs[last].(name := last)] else []
  }

  function Configured(configs: map<string, Config>, cfgs: seq<Config>): map<string, Config> {
    if cfgs == [] then configs
    else Configured(configs, cfgs[..|cfgs| - 1])[cfgs[|cfgs| - 1].name := cfgs[|cfgs| - 1]]
  }

  /** `outcomes[i]` is what connecting to `cfgs[i]` gave: its tools, or nothing. */
  function Connected(connections: map<string, seq<RemoteTool>>, cfgs: seq<Config>,
                     outcomes: seq<Option<seq<RemoteTool>>>): map<string, seq<RemoteTool>>
    requires |cfgs| == |outcomes|
  {
    if cfgs == [] then connections
    else
      var n := |cfgs| - 1;
      var pre := Connected(connections, cfgs[..n], outcomes[..n]);
      if outcomes[n].Some? then pre[cfgs[n].name := outcomes[n].value] else pre
  }

  ghost function ServersOf(named: map<string, Wrapper>): (servers: map<string, string>)
    ensures servers.Keys == named.Keys && forall n :: n in named ==> servers[n] == named[n].server
    decreases named.Keys
  {
    if named == map[] then map[]
    else
      var n :| n in named;
      ServersOf(named - {n})[n := named[n].server]
  }

  /** `connect_all`: the new tables and the named tools. */
  ghost function ConnectAll(m: Manager, cfgs: seq<Config>, outcomes: seq<Option<seq<RemoteTool>>>, builtin: set<string>)
    : (Manager, map<string, Wrapper>)
    requires |cfgs| == |outcomes|
  {
    var connections := Connected(m.connections, cfgs, outcomes);
    var named := NameAll(Connect, builtin, AllItems(cfgs, connections));
    (Manager(connections, Configured(m.configs, cfgs), m.serverOf + ServersOf(named)), named)
  }

  function Purged(serverOf: map<string, string>, server: string): map<string, string> {
    serverOf - set n | n in serverOf && serverOf[n] == server
  }

  /** `restart` of one server; `outcome` is what reconnecting gave. */
  ghost function Restart(m: Manager, server: string, outcome: Option<seq<RemoteTool>>, builtin: set<string>)
    : (Manager, map<string, Wrapper>)
  {
    if server !in m.configs then (m, map[])
    else
      var others := Purged(m.serverOf, server);
      if outcome.None? then (Manager(m.connections - {server}, m.configs, others), map[])
      else
        var named := NameAll(List, builtin + others.Keys, ServerItems(m.configs[server].(name := server), outcome.value));
        (Manager(m.connections[server := outcome.value], m.configs, others + ServersOf(named)), named)
  }

  /** What reconnecting to each server gives. */
  type Outcomes = string -> Option<seq<RemoteTool>>

  function PurgedAll(serverOf: map<string, string>, servers: seq<string>): map<string, string> {
    serverOf - set n | n in serverOf && serverOf[n] in servers
  }

  /** Each target in turn is closed and connected again, or lost. */
  function Reconnected(connections: map<string, seq<RemoteTool>>, targets: seq<string>, outcome: Outcomes)
    : map<string, seq<RemoteTool>>
  {
    if targets == [] then connections
    else
      var name := targets[|targets| - 1];
      var earlier := Reconnected(connections, targets[..|targets| - 1], outcome);
      if outcome(name).Some? then earlier[name := outcome(name).value] else earlier - {name}
  }

  /** The tools of the targets that are connected, named one server after the other, each staying clear of the
      names given before. */
  function NameTargets(configs: map<string, Config>, connections: map<string, seq<RemoteTool>>, targets: seq<string>,
                       base: set<string>): map<string, Wrapper>
  {
    if targets == [] then map[]
    else
      var name := targets[|targets| - 1];
      var earlier := NameTargets(configs, connections, targets[..|targets| - 1], base);
      if name in connections && name in configs
      then earlier + NameAll(List, base + earlier.Keys, ServerItems(configs[name].(name := name), connections[name]))
      else earlier
  }

  /** `restart` of the servers in `targets`, all of them configured. */
  ghost function RestartAll(m: Manager, targets: seq<string>, outcome: Outcomes, builtin: set<string>)
    : (Manager, map<string, Wrapper>)
  {
    var others := PurgedAll(m.serverOf, targets);
    var connections := Reconnected(m.connections, targets, outcome);
    var named := NameTargets(m.configs, connections, targets, builtin + others.Keys);
    (Manager(connections, m.configs, others + ServersOf(named)), named)
  }

  function Disconnect(m: Manager, server: string): Manager {
    Manager(m.connections - {server}, m.configs - {server}, Purged(m.serverOf, server))
  }

  // ---------------------------------------------------------------------------------------------
  // The registry's operations
  // ---------------------------------------------------------------------------------------------

  predicate IsMcp(r: Registry, n: string) { n in r.metadata && r.metadata[n].McpMeta? }

  function McpNames(r: Registry): set<string> { set n | n in r.metadata && r.metadata[n].McpMeta? }

  /** `metadata.get(name, {}).get("server", "")`. */
  function MetaServer(r: Registry, n: string): string { if IsMcp(r, n) then r.metadata[n].server else "" }

  function PinOf(pinMap: map<string, bool>, server: string): bool {
    if server in pinMap then pinMap[server] else true
  }

  function MetaFor(w: Wrapper, pinMap: map<string, bool>): Meta {
    McpMeta(w.server, w.confirm, PinOf(pinMap, w.server))
  }

  ghost function Entries(named: map<string, Wrapper>): (entries: map<string, Entry>)
    ensures entries.Keys == named.Keys && forall n :: n in named ==> entries[n] == Mcp(named[n])
    decreases named.Keys
  {
    if named == map[] then map[]
    else
      var n :| n in named;
      Entries(named - {n})[n := Mcp(named[n])]
  }

  ghost function Metas(named: map<string, Wrapper>, pinMap: map<string, bool>): (metas: map<string, Meta>)
    ensures metas.Keys == named.Keys && forall n :: n in named ==> metas[n] == MetaFor(named[n], pinMap)
    decreases named.Keys
  {
    if named == map[] then map[]
    else
      var n :| n in named;
      Metas(named - {n}, pinMap)[n := MetaFor(named[n], pinMap)]
  }

  function Pins(named: map<string, Wrapper>, pinMap: map<string, bool>): set<string> {
    set n | n in named && PinOf(pinMap, named[n].server)
  }

  /** `register_mcp_tools`. */
  ghost function Register(r: Registry, named: map<string, Wrapper>, pinMap: map<string, bool>): Registry {
    Registry(r.tools + Entries(named), r.metadata + Metas(named, pinMap),
             (r.pinned - named.Keys) + Pins(named, pinMap))
  }

  function NamesOfServer(r: Registry, server: string): set<string> {
    set n | n in r.metadata && r.metadata[n].McpMeta? && r.metadata[n].server == server
  }

  /** `unregister_mcp_server_tools`. */
  function Unregister(r: Registry, server: string): Registry {
    var gone := NamesOfServer(r, server);
    Registry(r.tools - gone, r.metadata - gone, r.pinned - gone)
  }

  /** `mcp_builtin_tool_names`. */
  function BuiltinNames(r: Registry): set<string> { set n | n in r.tools && !IsMcp(r, n) }

  /** The collision base of the restart route: every tool not owned by the server. */
  function NotOwnedBy(r: Registry, server: string): set<string> {
    set n | n in r.tools && MetaServer(r, n) != server
  }

  // ---------------------------------------------------------------------------------------------
  // Operations on both
  // ---------------------------------------------------------------------------------------------

  datatype World = World(m: Manager, r: Registry)

  /** Start-up, adding a server, restarting one, removing one. */
  datatype Op =
    | OpConnect(cfgs: seq<Config>, outcomes: seq<Option<seq<RemoteTool>>>)
    | OpRestart(server: string, outcome: Option<seq<RemoteTool>>, pin: bool)
    | OpRemove(server: string)

  predicate OpOk(op: Op) {
    (op.OpConnect? ==> |op.cfgs| == |op.outcomes|) && (op.OpRestart? ==> op.server != "")
  }

  function PinMap(cfgs: seq<Config>): map<string, bool> {
    if cfgs == [] then map[] else PinMap(cfgs[..|cfgs| - 1])[cfgs[|cfgs| - 1].name := cfgs[|cfgs| - 1].pin]
  }

  ghost function Apply(w: World, op: Op): World
    requires OpOk(op)
  {
    match op
    case OpConnect(cfgs, outcomes) =>
      var (m, named) := ConnectAll(w.m, cfgs, outcomes, w.r.tools.Keys);
      World(m, Register(w.r, named, PinMap(cfgs)))
    case OpRestart(server, outcome, pin) =>
      var (m, named) := Restart(w.m, server, outcome, NotOwnedBy(w.r, server));
      World(m, Register(Unregister(w.r, server), named, map[server := pin]))
    case OpRemove(server) => World(Disconnect(w.m, server), Unregister(w.r, server))
  }

  ghost function ApplyAll(w: World, ops: seq<Op>): World
    requires forall op :: op in ops ==> OpOk(op)
  {
    if ops == [] then w else Apply(ApplyAll(w, ops[..|ops| - 1]), ops[|ops| - 1])
  }

  // ---------------------------------------------------------------------------------------------
  // The invariant
  // ---------------------------------------------------------------------------------------------

  /** The manager and the registry agree: a name is mapped to a server exactly when its registry metadata
      says so, the tool stored under it is that server's, every mapped server is configured, and the pinned
      set is the MCP names whose metadata says pin. */
  ghost predicate Mirror(w: World) { forall n :: MirrorAt(w, n) }

  ghost predicate MirrorAt(w: World, n: string) {
    (n in w.m.serverOf <==> IsMcp(w.r, n)) &&
    (n in w.m.serverOf ==>
       w.r.metadata[n].server == w.m.serverOf[n] && n in w.r.tools && w.r.tools[n].Mcp? &&
       w.r.tools[n].wrapper.server == w.m.serverOf[n] &&
       w.r.tools[n].wrapper.confirm == w.r.metadata[n].confirm && w.m.serverOf[n] in w.m.configs) &&
    (n in w.r.pinned <==> IsMcp(w.r, n) && w.r.metadata[n].pin)
  }

  /** What the registry says about `n`. */
  predicate SameEntry(a: Registry, b: Registry, n: string) {
    (n in a.tools <==> n in b.tools) && (n in a.tools ==> a.tools[n] == b.tools[n]) &&
    (n in a.metadata <==> n in b.metadata) && (n in a.metadata ==> a.metadata[n] == b.metadata[n]) &&
    (n in a.pinned <==> n in b.pinned)
  }

  lemma {:induction false} ItemsServers(cfgs: seq<Config>, connections: map<string, seq<RemoteTool>>)
    ensures forall i :: i in AllItems(cfgs, connections) ==> exists c :: c in cfgs && c.name == i.server
  {
    if cfgs != [] {
      var pre, last := cfgs[..|cfgs| - 1], cfgs[|cfgs| - 1];
      ItemsServers(pre, connections);
      forall i | i in AllItems(cfgs, connections) ensures exists c :: c in cfgs && c.name == i.server {
        if i in AllItems(pre, connections) {
          var c :| c in pre && c.name == i.server;
          assert c in cfgs;
        } else {
          assert last in cfgs && i.server == last.name;
        }
      }
    }
  }

  lemma {:induction false} ConfiguredHas(configs: map<string, Config>, cfgs: seq<Config>)
    ensures configs.Keys <= Configured(configs, cfgs).Keys
    ensures forall c :: c in cfgs ==> c.name in Configured(configs, cfgs)
  {
    if cfgs != [] {
      ConfiguredHas(configs, cfgs[..|cfgs| - 1]);
    }
  }

  /** Registering named tools whose servers are configured, mapped in the manager, keeps the mirror. */
  lemma RegisterKeeps(w: World, m': Manager, named: map<string, Wrapper>, pinMap: map<string, bool>)
    requires Mirror(w) && m'.serverOf == w.m.serverOf + ServersOf(named)
    requires w.m.configs.Keys <= m'.configs.Keys && forall n :: n in named ==> named[n].server in m'.configs
    ensures Mirror(World(m', Register(w.r, named, pinMap)))
  {
    forall n ensures MirrorAt(World(m', Register(w.r, named, pinMap)), n) {
      assert MirrorAt(w, n);
      RegisterAt(w.r, named, pinMap, n);
    }
  }

  lemma RegisterAt(r: Registry, named: map<string, Wrapper>, pinMap: map<string, bool>, n: string)
    ensures var r' := Register(r, named, pinMap);
            if n in named
            then n in r'.tools && r'.tools[n] == Mcp(named[n]) && n in r'.metadata &&
              r'.metadata[n] == MetaFor(named[n], pinMap) && (n in r'.pinned <==> r'.metadata[n].pin)
            else SameEntry(r, r', n)
  {
  }

  lemma UnregisterKeeps(w: World, m': Manager, server: string)
    requires Mirror(w) && m'.serverOf == Purged(w.m.serverOf, server)
    requires forall s :: s in w.m.configs && s != server ==> s in m'.configs
    ensures Mirror(World(m', Unregister(w.r, server)))
  {
    var w' := World(m', Unregister(w.r, server));
    forall n ensures MirrorAt(w', n) {
      assert MirrorAt(w, n);
    }
  }

  lemma ConnectKeepsMirror(w: World, cfgs: seq<Config>, outcomes: seq<Option<seq<RemoteTool>>>)
    requires Mirror(w) && |cfgs| == |outcomes|
    ensures Mirror(Apply(w, OpConnect(cfgs, outcomes)))
  {
    var items := AllItems(cfgs, Connected(w.m.connections, cfgs, outcomes));
    var named := NameAll(Connect, w.r.tools.Keys, items);
    NamesAreFresh(Connect, w.r.tools.Keys, items);
    ItemsServers(cfgs, Connected(w.m.connections, cfgs, outcomes));
    ConfiguredHas(w.m.configs, cfgs);
    var m' := ConnectAll(w.m, cfgs, outcomes, w.r.tools.Keys).0;
    forall n | n in named ensures named[n].server in m'.configs {
      var i :| i in items && NamedFor(n, named[n], i);
      var c :| c in cfgs && c.name == i.server;
    }
    RegisterKeeps(w, m', named, PinMap(cfgs));
  }

  lemma NamedServer(mode: Mode, base: set<string>, cfg: Config, tools: seq<RemoteTool>)
    ensures forall n :: n in NameAll(mode, base, ServerItems(cfg, tools)) ==>
              NameAll(mode, base, ServerItems(cfg, tools))[n].server == cfg.name
  {
    NamesAreFresh(mode, base, ServerItems(cfg, tools));
  }

  /** The manager between purging a server and naming its tools again. */
  function Between(m: Manager, server: string): Manager { m.(serverOf := Purged(m.serverOf, server)) }

  lemma RestartKeepsMirror(w: World, server: string, outcome: Option<seq<RemoteTool>>, pin: bool)
    requires Mirror(w) && server != ""
    ensures Mirror(Apply(w, OpRestart(server, outcome, pin)))
  {
    var builtin := NotOwnedBy(w.r, server);
    var (m', named) := Restart(w.m, server, outcome, builtin);
    var r1 := Unregister(w.r, server);
    if server !in w.m.configs {
      forall n | n in w.m.serverOf ensures w.m.serverOf[n] != server { assert MirrorAt(w, n); }
      assert Purged(w.m.serverOf, server) == w.m.serverOf;
    }
    UnregisterKeeps(w, Between(w.m, server), server);
    if server in w.m.configs && outcome.Some? {
      NamedServer(List, builtin + Purged(w.m.serverOf, server).Keys, w.m.configs[server].(name := server), outcome.value);
    } else {
      assert m'.serverOf == Purged(w.m.serverOf, server) + ServersOf(named);
    }
    RegisterKeeps(World(Between(w.m, server), r1), m', named, map[server := pin]);
  }

  /** Every operation keeps the mirror. */
  lemma ApplyKeepsMirror(w: World, op: Op)
    requires Mirror(w) && OpOk(op)
    ensures Mirror(Apply(w, op))
  {
    match op
    case OpConnect(cfgs, outcomes) => ConnectKeepsMirror(w, cfgs, outcomes);
    case OpRestart(server, outcome, pin) => RestartKeepsMirror(w, server, outcome, pin);
    case OpRemove(server) => UnregisterKeeps(w, Disconnect(w.m, server), server);
  }

  predicate Fresh(w: World) { w.m.serverOf == map[] && McpNames(w.r) == {} && w.r.pinned == {} }

  /** From a registry of built-ins, any sequence of connections, restarts and removals keeps it. */
  lemma {:induction false} EveryRunKeepsMirror(w: World, ops: seq<Op>)
    requires Fresh(w) && forall op :: op in ops ==> OpOk(op)
    ensures Mirror(ApplyAll(w, ops))
  {
    if ops == [] {
      assert forall n :: n in w.r.metadata && w.r.metadata[n].McpMeta? ==> n in McpNames(w.r);
    } else {
      EveryRunKeepsMirror(w, ops[..|ops| - 1]);
      ApplyKeepsMirror(ApplyAll(w, ops[..|ops| - 1]), ops[|ops| - 1]);
    }
  }

  // ---------------------------------------------------------------------------------------------
  // What an operation leaves alone
  // ---------------------------------------------------------------------------------------------

  /** Connecting changes no entry but those of the names it gives, and it gives no name that was already in
      the registry exactly when no tool shadows one. */
  lemma ConnectLeavesOthers(w: World, cfgs: seq<Config>, outcomes: seq<Option<seq<RemoteTool>>>, n: string)
    requires |cfgs| == |outcomes|
    ensures var w' := Apply(w, OpConnect(cfgs, outcomes));
            var items := AllItems(cfgs, Connected(w.m.connections, cfgs, outcomes));
            var named := NameAll(Connect, w.r.tools.Keys, items);
            (n !in named ==>
               SameEntry(w.r, w'.r, n) && (n in w.m.serverOf <==> n in w'.m.serverOf) &&
               (n in w.m.serverOf ==> w'.m.serverOf[n] == w.m.serverOf[n])) &&
            (named.Keys !! w.r.tools.Keys
             <==> forall k :: 0 <= k < |items| ==> !Shadows(w.r.tools.Keys, items, k))
  {
    ConnectAvoidsBaseIff(w.r.tools.Keys, AllItems(cfgs, Connected(w.m.connections, cfgs, outcomes)));
  }

  /** A restart leaves alone every registered tool that is not the server's own, built-in or MCP, with no
      condition on names. */
  lemma RestartLeavesOthers(w: World, server: string, outcome: Option<seq<RemoteTool>>, pin: bool, n: string)
    requires Mirror(w) && server != "" && n in w.r.tools && MetaServer(w.r, n) != server
    ensures var w' := Apply(w, OpRestart(server, outcome, pin));
            SameEntry(w.r, w'.r, n) &&
            (n in w.m.serverOf <==> n in w'.m.serverOf) &&
            (n in w.m.serverOf ==> w'.m.serverOf[n] == w.m.serverOf[n])
  {
    var builtin := NotOwnedBy(w.r, server);
    if server in w.m.configs && outcome.Some? {
      ListAvoidsBase(builtin + Purged(w.m.serverOf, server).Keys,
                     ServerItems(w.m.configs[server].(name := server), outcome.value));
    }
    assert n in builtin && MirrorAt(w, n);
  }

  /** Registering tools of a server that has none yet: its names are then exactly those. */
  lemma RegisterFresh(r: Registry, named: map<string, Wrapper>, server: string, pin: bool)
    requires NamesOfServer(r, server) == {} && forall n :: n in named ==> named[n].server == server
    ensures var r' := Register(r, named, map[server := pin]);
            NamesOfServer(r', server) == named.Keys &&
            forall n :: n in named ==> n in r'.tools && r'.tools[n] == Mcp(named[n]) && (n in r'.pinned <==> pin)
  {
    var r' := Register(r, named, map[server := pin]);
    forall n ensures n in NamesOfServer(r', server) <==> n in named {
      assert n !in NamesOfServer(r, server);
    }
  }

  /** After a restart the server's names are exactly those just given to the tools it now offers. */
  lemma RestartRebuilds(w: World, server: string, outcome: Option<seq<RemoteTool>>, pin: bool)
    requires server != ""
    ensures var r' := Apply(w, OpRestart(server, outcome, pin)).r;
            var named := Restart(w.m, server, outcome, NotOwnedBy(w.r, server)).1;
            NamesOfServer(r', server) == named.Keys &&
            forall n :: n in named ==> n in r'.tools && r'.tools[n] == Mcp(named[n]) && (n in r'.pinned <==> pin)
  {
    var builtin := NotOwnedBy(w.r, server);
    if server in w.m.configs && outcome.Some? {
      NamedServer(List, builtin + Purged(w.m.serverOf, server).Keys, w.m.configs[server].(name := server), outcome.value);
    }
    RegisterFresh(Unregister(w.r, server), Restart(w.m, server, outcome, builtin).1, server, pin);
  }

  /** The names given in a restart of several servers keep clear of the collision base and of each other, and say
      which target each comes from. */
  lemma {:induction false} NameTargetsAvoid(configs: map<string, Config>, connections: map<string, seq<RemoteTool>>,
                                            targets: seq<string>, base: set<string>)
    ensures var named := NameTargets(configs, connections, targets, base);
            named.Keys !! base && forall n :: n in named ==> named[n].server in targets && named[n].server in connections
  {
    if targets != [] {
      var pre, name := targets[..|targets| - 1], targets[|targets| - 1];
      NameTargetsAvoid(configs, connections, pre, base);
      var earlier := NameTargets(configs, connections, pre, base);
      if name in connections && name in configs {
        var cfg := configs[name].(name := name);
        ListAvoidsBase(base + earlier.Keys, ServerItems(cfg, connections[name]));
        NamedServer(List, base + earlier.Keys, cfg, connections[name]);
      }
    }
  }

  /** A restart of any number of servers: afterwards the names mapped to them are exactly those just given, none of
      which is a built-in's or another server's, and every other server's names are as they were. */
  lemma RestartAllRebuilds(m: Manager, targets: seq<string>, outcome: Outcomes, builtin: set<string>, n: string)
    ensures var (m', named) := RestartAll(m, targets, outcome, builtin);
            (n in named <==> n in m'.serverOf && m'.serverOf[n] in targets) &&
            (n in named ==> n !in builtin && m'.serverOf[n] == named[n].server && named[n].server in m'.connections) &&
            (n in m.serverOf && m.serverOf[n] !in targets ==> n in m'.serverOf && m'.serverOf[n] == m.serverOf[n])
  {
    var others := PurgedAll(m.serverOf, targets);
    var connections := Reconnected(m.connections, targets, outcome);
    NameTargetsAvoid(m.configs, connections, targets, builtin + others.Keys);
  }

  /** Of one server, it is the restart the routes use. */
  lemma RestartAllOfOne(m: Manager, server: string, outcome: Outcomes, builtin: set<string>)
    ensures RestartAll(m, if server in m.configs then [server] else [], outcome, builtin)
         == Restart(m, server, outcome(server), builtin)
  {
    if server in m.configs {
      var others := Purged(m.serverOf, server);
      var connections := Reconnected(m.connections, [server], outcome);
      assert [server][..0] == [] && PurgedAll(m.serverOf, [server]) == others;
      OneReconnected(m.connections, server, outcome);
      OneTargetNamed(m.configs, connections, server, builtin + others.Keys);
      assert others + ServersOf(map[]) == others;
    } else {
      assert PurgedAll(m.serverOf, []) == m.serverOf && m.serverOf + ServersOf(map[]) == m.serverOf;
    }
  }

  lemma OneReconnected(connections: map<string, seq<RemoteTool>>, server: string, outcome: Outcomes)
    ensures Reconnected(connections, [server], outcome)
         == if outcome(server).Some? then connections[server := outcome(server).value] else connections - {server}
  {
    assert [server][..0] == [] && Reconnected(connections, [], outcome) == connections;
  }

  lemma OneTargetNamed(configs: map<string, Config>, connections: map<string, seq<RemoteTool>>, server: string, base: set<string>)
    requires server in configs
    ensures NameTargets(configs, connections, [server], base)
         == if server in connections then NameAll(List, base, ServerItems(configs[server].(name := server), connections[server]))
            else map[]
  {
    assert [server][..0] == [];
    var none := NameTargets(configs, connections, [], base);
    assert none == map[] && base + none.Keys == base;
    if server in connections {
      var named := NameAll(List, base, ServerItems(configs[server].(name := server), connections[server]));
      assert none + named == named;
    }
  }

  /** Removing a server removes exactly its names, everywhere. */
  lemma RemoveRevokesExactly(w: World, server: string, n: string)
    requires Mirror(w)
    ensures var w' := Apply(w, OpRemove(server));
            server !in w'.m.configs && server !in w'.m.connections &&
            if IsMcp(w.r, n) && w.r.metadata[n].server == server
            then n !in w'.r.tools && n !in w'.r.metadata && n !in w'.r.pinned && n !in w'.m.serverOf
            else SameEntry(w.r, w'.r, n) && (n in w'.m.serverOf <==> n in w.m.serverOf)
  {
    assert MirrorAt(w, n);
  }

  /** A built-in tool stays as it was through any run in which no connection shadows a registered name. */
  lemma {:induction false} BuiltinsSurvive(w: World, ops: seq<Op>, n: string)
    requires Fresh(w) && n in BuiltinNames(w.r) && forall op :: op in ops ==> OpOk(op)
    requires forall k :: 0 <= k < |ops| ==> NoShadowing(ApplyAll(w, ops[..k]), ops[k])
    ensures SameEntry(w.r, ApplyAll(w, ops).r, n) && n in BuiltinNames(ApplyAll(w, ops).r)
  {
    if ops != [] {
      var pre, op := ops[..|ops| - 1], ops[|ops| - 1];
      forall k | 0 <= k < |pre| ensures NoShadowing(ApplyAll(w, pre[..k]), pre[k]) {
        assert pre[..k] == ops[..k];
      }
      BuiltinsSurvive(w, pre, n);
      EveryRunKeepsMirror(w, pre);
      assert NoShadowing(ApplyAll(w, pre), op);
      BuiltinStep(ApplyAll(w, pre), op, n);
    }
  }

  ghost predicate NoShadowing(w: World, op: Op)
  {
    op.OpConnect? && |op.cfgs| == |op.outcomes| ==>
      var items := AllItems(op.cfgs, Connected(w.m.connections, op.cfgs, op.outcomes));
      forall k :: 0 <= k < |items| ==> !Shadows(w.r.tools.Keys, items, k)
  }

  lemma BuiltinStep(w: World, op: Op, n: string)
    requires Mirror(w) && OpOk(op) && NoShadowing(w, op) && n in BuiltinNames(w.r)
    ensures SameEntry(w.r, Apply(w, op).r, n) && n in BuiltinNames(Apply(w, op).r)
  {
    match op
    case OpConnect(cfgs, outcomes) => ConnectLeavesOthers(w, cfgs, outcomes, n);
    case OpRestart(server, outcome, pin) => RestartLeavesOthers(w, server, outcome, pin, n);
    case OpRemove(server) => RemoveRevokesExactly(w, server, n);
  }
}
