/** The MCP manager and the API's registry helpers as objects updated in place; every method is tied to the
    operation on values that McpMirror reasons about. Operations do not overlap in time. */
module McpRuntime {
  import opened Options
  import opened McpNaming
  import M = McpMirror

  class MCPManager {
    var connections: map<string, seq<RemoteTool>>
    var configs: map<string, M.Config>
    var toolServerMap: map<string, string>

    ghost function State(): M.Manager
      reads this
    {
      M.Manager(connections, configs, toolServerMap)
    }

    constructor ()
      ensures State() == M.Manager(map[], map[], map[])
    {
      connections, configs, toolServerMap := map[], map[], map[];
    }

    /** The naming loop body shared by all callers: name one tool and map the name to its server. */
    method NameOne(mode: Mode, base: set<string>, i: Item, named: map<string, Wrapper>)
      returns (all: map<string, Wrapper>)
      modifies this`toolServerMap
      ensures all == Add(mode, named, base, i)
      ensures toolServerMap ==
              if Names(mode, i, named.Keys, base)
              then old(toolServerMap)[Pick(mode, i, named.Keys, base).value := i.server]
              else old(toolServerMap)
    {
      var toolName := i.tool.name;
      if mode.Connect? && Reserved(toolName) {
        return named;
      }
      if toolName in named || toolName in base {
        var prefixed := i.server + "_" + toolName;
        if prefixed in named || (mode.List? && prefixed in base) {
          return named;
        }
        toolName := prefixed;
      }
      if !i.tool.wraps {
        return named;
      }
      all := named[toolName := Wrapper(i.server, i.tool.name, i.confirm)];
      toolServerMap := toolServerMap[toolName := i.server];
    }

    /** The loop over one server's tools. */
    method NameServer(mode: Mode, base: set<string>, cfg: M.Config, tools: seq<RemoteTool>,
                      ghost before: seq<Item>, ghost base0: map<string, string>, named: map<string, Wrapper>)
      returns (all: map<string, Wrapper>)
      requires named == NameAll(mode, base, before)
      requires toolServerMap == base0 + M.ServersOf(named)
      modifies this`toolServerMap
      ensures all == NameAll(mode, base, before + M.ServerItems(cfg, tools))
      ensures toolServerMap == base0 + M.ServersOf(all)
    {
      all := named;
      ghost var items := M.ServerItems(cfg, tools);
      assert before + items[..0] == before;
      for k := 0 to |tools|
        invariant all == NameAll(mode, base, before + items[..k])
        invariant toolServerMap == base0 + M.ServersOf(all)
      {
        var i := Item(cfg.name, cfg.confirm, tools[k]);
        ghost var pre := all;
        all := NameOne(mode, base, i, all);
        assert before + items[..k + 1] == (before + items[..k]) + [i];
        Snoc(mode, base, before + items[..k], i);
        MapSnoc(base0, mode, base, pre, i);
      }
      assert items[..|tools|] == items;
    }

    method ConnectAll(cfgs: seq<M.Config>, outcomes: seq<Option<seq<RemoteTool>>>, builtin: set<string>)
      returns (all: map<string, Wrapper>)
      requires |cfgs| == |outcomes|
      modifies this
      ensures (State(), all) == M.ConnectAll(old(State()), cfgs, outcomes, builtin)
    {
      for i := 0 to |cfgs|
        invariant configs == M.Configured(old(configs), cfgs[..i])
        invariant connections == old(connections) && toolServerMap == old(toolServerMap)
      {
        assert cfgs[..i + 1][..i] == cfgs[..i];
        configs := configs[cfgs[i].name := cfgs[i]];
      }
      assert cfgs[..|cfgs|] == cfgs && outcomes[..|cfgs|] == outcomes;
      for i := 0 to |cfgs|
        invariant configs == M.Configured(old(configs), cfgs)
        invariant connections == M.Connected(old(connections), cfgs[..i], outcomes[..i])
        invariant toolServerMap == old(toolServerMap)
      {
        assert cfgs[..i + 1][..i] == cfgs[..i] && outcomes[..i + 1][..i] == outcomes[..i];
        if outcomes[i].Some? {
          connections := connections[cfgs[i].name := outcomes[i].value];
        }
      }
      all := NameConnected(cfgs, builtin);
    }

    /** The loop over the configured servers that are connected. */
    method NameConnected(cfgs: seq<M.Config>, builtin: set<string>) returns (all: map<string, Wrapper>)
      modifies this`toolServerMap
      ensures all == NameAll(Connect, builtin, M.AllItems(cfgs, connections))
      ensures toolServerMap == old(toolServerMap) + M.ServersOf(all)
    {
      all := map[];
      ghost var base0 := toolServerMap;
      assert base0 + M.ServersOf(all) == base0;
      for i := 0 to |cfgs|
        invariant all == NameAll(Connect, builtin, M.AllItems(cfgs[..i], connections))
        invariant toolServerMap == base0 + M.ServersOf(all)
      {
        assert cfgs[..i + 1][..i] == cfgs[..i];
        ghost var before := M.AllItems(cfgs[..i], connections);
        assert before + [] == before;
        if cfgs[i].name in connections {
          all := NameServer(Connect, builtin, cfgs[i], connections[cfgs[i].name], before, base0, all);
        }
      }
      assert cfgs[..|cfgs|] == cfgs;
    }

    /** Deletes every name mapped to the server. */
    method PurgeMap(server: string)
      modifies this`toolServerMap
      ensures toolServerMap == M.Purged(old(toolServerMap), server)
    {
      ghost var start := toolServerMap;
      var keys := set k | k in toolServerMap && toolServerMap[k] == server;
      while keys != {}
        invariant forall k :: k in toolServerMap <==> k in start && (start[k] != server || k in keys)
        invariant forall k :: k in toolServerMap ==> toolServerMap[k] == start[k]
        invariant forall k :: k in keys ==> k in start && start[k] == server
        decreases keys
      {
        var key :| key in keys;
        toolServerMap := toolServerMap - {key};
        keys := keys - {key};
      }
      assert toolServerMap == M.Purged(start, server);
    }

    /** `get_langchain_tools` for the servers in `targets`: those not connected or not configured are
        passed over. */
    method GetLangchainTools(targets: seq<string>, base: set<string>) returns (all: map<string, Wrapper>)
      modifies this`toolServerMap
      ensures all == NameAll(List, base, M.AllItems(M.Targets(configs, targets), connections))
      ensures toolServerMap == old(toolServerMap) + M.ServersOf(all)
    {
      all := map[];
      ghost var base0 := toolServerMap;
      assert base0 + M.ServersOf(all) == base0;
      for i := 0 to |targets|
        invariant all == NameAll(List, base, M.AllItems(M.Targets(configs, targets[..i]), connections))
        invariant toolServerMap == base0 + M.ServersOf(all)
      {
        var name := targets[i];
        TargetsSnoc(configs, targets, i, connections);
        ghost var before := M.AllItems(M.Targets(configs, targets[..i]), connections);
        assert before + [] == before;
        if name !in connections || name !in configs {
          continue;
        }
        all := NameServer(List, base, configs[name].(name := name), connections[name], before, base0, all);
      }
      assert targets[..|targets|] == targets;
    }

    /** `restart` of one named server, or of all of them when no name is given; `order` is then the order in which
        the configuration table lists them. */
    method Restart(server: Option<string>, order: seq<string>, outcome: M.Outcomes, builtin: set<string>)
      returns (newTools: map<string, Wrapper>)
      requires server.None? ==> forall s :: s in order <==> s in configs
      modifies this
      ensures (State(), newTools) ==
              M.RestartAll(old(State()), TargetsOf(server, order, old(configs)), outcome, builtin)
    {
      var targets := TargetsOf(server, order, configs);
      ReconnectTargets(targets, outcome);
      newTools := NameTargets(targets, builtin);
    }

    /** Closing and reconnecting each target, its names purged first. */
    method ReconnectTargets(targets: seq<string>, outcome: M.Outcomes)
      modifies this`connections, this`toolServerMap
      ensures toolServerMap == M.PurgedAll(old(toolServerMap), targets)
      ensures connections == M.Reconnected(old(connections), targets, outcome)
    {
      ghost var serverOf, before := toolServerMap, connections;
      assert M.PurgedAll(serverOf, targets[..0]) == serverOf;
      for i := 0 to |targets|
        invariant toolServerMap == M.PurgedAll(serverOf, targets[..i])
        invariant connections == M.Reconnected(before, targets[..i], outcome)
      {
        PurgeNext(serverOf, targets, i);
        ReconnectNext(before, targets, i, outcome);
        PurgeMap(targets[i]);
        connections := connections - {targets[i]};
        if outcome(targets[i]).Some? {
          connections := connections[targets[i] := outcome(targets[i]).value];
        }
      }
      assert targets[..|targets|] == targets;
    }

    /** Naming the tools of the targets that are connected again. */
    method NameTargets(targets: seq<string>, builtin: set<string>) returns (newTools: map<string, Wrapper>)
      modifies this`toolServerMap
      requires forall n :: n in toolServerMap ==> toolServerMap[n] !in targets
      ensures newTools == M.NameTargets(configs, connections, targets, builtin + old(toolServerMap).Keys)
      ensures toolServerMap == old(toolServerMap) + M.ServersOf(newTools)
    {
      ghost var others := toolServerMap;
      ghost var base := builtin + others.Keys;
      var known := set k | k in toolServerMap && toolServerMap[k] !in targets;
      assert known == others.Keys;
      newTools := map[];
      assert others + M.ServersOf(newTools) == others;
      for i := 0 to |targets|
        invariant newTools == M.NameTargets(configs, connections, targets[..i], base)
        invariant builtin + known == base + newTools.Keys
        invariant toolServerMap == others + M.ServersOf(newTools)
      {
        NameTargetNext(configs, connections, targets, i, base);
        if targets[i] in connections && targets[i] in configs {
          OneTarget(configs, targets[i], connections);
          var serverTools := GetLangchainTools([targets[i]], builtin + known);
          ServersJoin(others, newTools, serverTools);
          known := known + serverTools.Keys;
          newTools := newTools + serverTools;
        }
      }
      assert targets[..|targets|] == targets;
    }

    /** `disconnect`; tells whether a live connection was closed. */
    method Disconnect(server: string) returns (closed: bool)
      modifies this
      ensures State() == M.Disconnect(old(State()), server)
      ensures closed <==> server in old(connections)
    {
      PurgeMap(server);
      closed := server in connections;
      connections := connections - {server};
      configs := configs - {server};
    }
  }

  /** The servers a restart is for. */
  function TargetsOf(server: Option<string>, order: seq<string>, configs: map<string, M.Config>): seq<string> {
    match server
    case Some(s) => if s in configs then [s] else []
    case None => order
  }

  lemma PurgeNext(serverOf: map<string, string>, targets: seq<string>, i: nat)
    requires i < |targets|
    ensures M.PurgedAll(serverOf, targets[..i + 1]) == M.Purged(M.PurgedAll(serverOf, targets[..i]), targets[i])
  {
    assert forall s :: s in targets[..i + 1] <==> s in targets[..i] || s == targets[i];
  }

  lemma ReconnectNext(before: map<string, seq<RemoteTool>>, targets: seq<string>, i: nat, outcome: M.Outcomes)
    requires i < |targets|
    ensures var earlier := M.Reconnected(before, targets[..i], outcome);
            M.Reconnected(before, targets[..i + 1], outcome) ==
            if outcome(targets[i]).Some? then (earlier - {targets[i]})[targets[i] := outcome(targets[i]).value]
            else earlier - {targets[i]}
  {
    assert targets[..i + 1][..i] == targets[..i];
    var earlier := M.Reconnected(before, targets[..i], outcome);
    if outcome(targets[i]).Some? {
      var tools := outcome(targets[i]).value;
      assert (earlier - {targets[i]})[targets[i] := tools] == earlier[targets[i] := tools];
    }
  }

  lemma NameTargetNext(configs: map<string, M.Config>, connections: map<string, seq<RemoteTool>>, targets: seq<string>, i: nat,
                       base: set<string>)
    requires i < |targets|
    ensures var earlier, name := M.NameTargets(configs, connections, targets[..i], base), targets[i];
            M.NameTargets(configs, connections, targets[..i + 1], base) ==
            if name in connections && name in configs
            then earlier + NameAll(List, base + earlier.Keys, M.ServerItems(configs[name].(name := name), connections[name]))
            else earlier
  {
    assert targets[..i + 1][..i] == targets[..i];
  }

  lemma ServersJoin(others: map<string, string>, a: map<string, Wrapper>, b: map<string, Wrapper>)
    ensures others + M.ServersOf(a) + M.ServersOf(b) == others + M.ServersOf(a + b)
  {
    ServersOfBoth(a, b);
    AddAssociates(others, M.ServersOf(a), M.ServersOf(b));
  }

  lemma ServersOfBoth(a: map<string, Wrapper>, b: map<string, Wrapper>)
    ensures M.ServersOf(a + b) == M.ServersOf(a) + M.ServersOf(b)
  {
    var all, x, y := M.ServersOf(a + b), M.ServersOf(a), M.ServersOf(b);
    SameMap(all, x + y, (a + b).Keys);
  }

  lemma SameMap(a: map<string, string>, b: map<string, string>, keys: set<string>)
    requires a.Keys == keys && b.Keys == keys && forall n :: n in keys ==> a[n] == b[n]
    ensures a == b
  {
  }

  lemma AddAssociates(a: map<string, string>, b: map<string, string>, c: map<string, string>)
    ensures a + b + c == a + (b + c)
  {
  }

  lemma Snoc(mode: Mode, base: set<string>, items: seq<Item>, i: Item)
    ensures NameAll(mode, base, items + [i]) == Add(mode, NameAll(mode, base, items), base, i)
  {
    assert (items + [i])[..|items|] == items;
  }

  lemma TargetsSnoc(configs: map<string, M.Config>, targets: seq<string>, i: nat,
                    connections: map<string, seq<RemoteTool>>)
    requires i < |targets|
    ensures var name := targets[i];
            M.AllItems(M.Targets(configs, targets[..i + 1]), connections) ==
            M.AllItems(M.Targets(configs, targets[..i]), connections) +
            if name in connections && name in configs
            then M.ServerItems(configs[name].(name := name), connections[name]) else []
  {
    assert targets[..i + 1][..i] == targets[..i];
    var pre := M.Targets(configs, targets[..i]);
    var items := M.AllItems(pre, connections);
    assert pre + [] == pre && items + [] == items;
    if targets[i] in configs {
      assert (pre + [configs[targets[i]].(name := targets[i])])[..|pre|] == pre;
    }
  }

  lemma OneTarget(configs: map<string, M.Config>, server: string, connections: map<string, seq<RemoteTool>>)
    requires server in configs && server in connections
    ensures M.AllItems(M.Targets(configs, [server]), connections) ==
            M.ServerItems(configs[server].(name := server), connections[server])
  {
    TargetsSnoc(configs, [server], 0, connections);
    assert [server][..1] == [server] && [server][..0] == [];
    var items := M.ServerItems(configs[server].(name := server), connections[server]);
    assert [] + items == items;
  }

  lemma MapSnoc(base0: map<string, string>, mode: Mode, base: set<string>, acc: map<string, Wrapper>, i: Item)
    ensures var all := Add(mode, acc, base, i);
            base0 + M.ServersOf(all) ==
            if Names(mode, i, acc.Keys, base)
            then (base0 + M.ServersOf(acc))[Pick(mode, i, acc.Keys, base).value := i.server]
            else base0 + M.ServersOf(acc)
  {
    if Names(mode, i, acc.Keys, base) {
      var n := Pick(mode, i, acc.Keys, base).value;
      ServersSnoc(acc, n, Wrap(i));
      AddSnoc(base0, M.ServersOf(acc), n, i.server);
    }
  }

  lemma ServersSnoc(acc: map<string, Wrapper>, n: string, w: Wrapper)
    ensures M.ServersOf(acc[n := w]) == M.ServersOf(acc)[n := w.server]
  {
  }

  /** The live registry and the pinned set the API keeps beside it. */
  class AppState {
    const mcp: MCPManager
    var tools: map<string, M.Entry>
    var metadata: map<string, M.Meta>
    var pinned: set<string>

    ghost function State(): M.Registry
      reads this
    {
      M.Registry(tools, metadata, pinned)
    }

    ghost function World(): M.World
      reads this, mcp
    {
      M.World(mcp.State(), State())
    }

    constructor (mcp: MCPManager, tools: map<string, M.Entry>, metadata: map<string, M.Meta>)
      ensures this.mcp == mcp && State() == M.Registry(tools, metadata, {})
    {
      this.mcp, this.tools, this.metadata, pinned := mcp, tools, metadata, {};
    }

    /** `mcp_builtin_tool_names`. */
    method McpBuiltinToolNames() returns (names: set<string>)
      ensures names == M.BuiltinNames(State())
    {
      names := {};
      var rest := tools.Keys;
      while rest != {}
        invariant rest <= tools.Keys
        invariant names == set n | n in tools && n !in rest && !M.IsMcp(State(), n)
        decreases rest
      {
        var name :| name in rest;
        if !(name in metadata && metadata[name].McpMeta?) {
          names := names + {name};
        }
        rest := rest - {name};
      }
    }

    method RegisterMcpTools(named: map<string, Wrapper>, pinMap: map<string, bool>)
      modifies this
      ensures State() == M.Register(old(State()), named, pinMap)
    {
      ghost var r0 := State();
      var rest := named.Keys;
      RegisterSome(r0, named, pinMap);
      while rest != {}
        invariant rest <= named.Keys
        invariant State() == M.Register(r0, Without(named, rest), pinMap)
        decreases rest
      {
        var name :| name in rest;
        RegisterNext(r0, named, rest, pinMap, name);
        tools := tools[name := M.Mcp(named[name])];
        var pin := M.PinOf(pinMap, named[name].server);
        metadata := metadata[name := M.McpMeta(named[name].server, named[name].confirm, pin)];
        if pin {
          pinned := pinned + {name};
        } else {
          pinned := pinned - {name};
        }
        rest := rest - {name};
      }
    }

    method UnregisterMcpServerTools(server: string) returns (removed: set<string>)
      modifies this
      ensures removed == M.NamesOfServer(old(State()), server)
      ensures State() == M.Unregister(old(State()), server)
    {
      removed := set n | n in metadata && metadata[n].McpMeta? && metadata[n].server == server;
      ghost var r0 := State();
      var rest := removed;
      while rest != {}
        invariant rest <= removed
        invariant tools == r0.tools - (removed - rest)
        invariant metadata == r0.metadata - (removed - rest)
        invariant pinned == r0.pinned - (removed - rest)
        decreases rest
      {
        var name :| name in rest;
        tools, metadata, pinned := tools - {name}, metadata - {name}, pinned - {name};
        rest := rest - {name};
      }
    }

    /** Start-up, and the route that adds a server. */
    method ConnectServers(cfgs: seq<M.Config>, outcomes: seq<Option<seq<RemoteTool>>>)
      requires |cfgs| == |outcomes|
      modifies this, mcp
      ensures World() == M.Apply(old(World()), M.OpConnect(cfgs, outcomes))
    {
      var named := mcp.ConnectAll(cfgs, outcomes, tools.Keys);
      RegisterMcpTools(named, M.PinMap(cfgs));
    }

    /** The restart route; `pin` is the persisted flag of the server. */
    method RestartServer(server: string, outcome: Option<seq<RemoteTool>>, pin: bool)
      requires server != ""
      modifies this, mcp
      ensures World() == M.Apply(old(World()), M.OpRestart(server, outcome, pin))
    {
      var builtin := set n | n in tools && M.MetaServer(M.Registry(tools, metadata, pinned), n) != server;
      M.RestartAllOfOne(mcp.State(), server, _ => outcome, builtin);
      var named := mcp.Restart(Some(server), [], _ => outcome, builtin);
      var _ := UnregisterMcpServerTools(server);
      RegisterMcpTools(named, map[server := pin]);
    }

    /** The route that removes a server. */
    method RemoveServer(server: string)
      modifies this, mcp
      ensures World() == M.Apply(old(World()), M.OpRemove(server))
    {
      var _ := mcp.Disconnect(server);
      var _ := UnregisterMcpServerTools(server);
    }
  }

  ghost function Without(named: map<string, Wrapper>, rest: set<string>): map<string, Wrapper> { named - rest }

  lemma RegisterSome(r: M.Registry, named: map<string, Wrapper>, pinMap: map<string, bool>)
    ensures M.Register(r, Without(named, named.Keys), pinMap) == r
    ensures Without(named, {}) == named
  {
    assert Without(named, named.Keys) == map[];
  }

  lemma RegisterNext(r: M.Registry, named: map<string, Wrapper>, rest: set<string>, pinMap: map<string, bool>, name: string)
    requires name in rest && rest <= named.Keys
    ensures var a, b := M.Register(r, Without(named, rest), pinMap), M.Register(r, Without(named, rest - {name}), pinMap);
            var w := named[name];
            b.tools == a.tools[name := M.Mcp(w)] && b.metadata == a.metadata[name := M.MetaFor(w, pinMap)] &&
            b.pinned == if M.PinOf(pinMap, w.server) then a.pinned + {name} else a.pinned - {name}
  {
    assert Without(named, rest - {name}) == Without(named, rest)[name := named[name]];
    RegisterSnoc(r, Without(named, rest), pinMap, name, named[name]);
  }

  lemma RegisterSnoc(r: M.Registry, seen: map<string, Wrapper>, pinMap: map<string, bool>, name: string, w: Wrapper)
    requires name !in seen
    ensures var a, b := M.Register(r, seen, pinMap), M.Register(r, seen[name := w], pinMap);
            b.tools == a.tools[name := M.Mcp(w)] && b.metadata == a.metadata[name := M.MetaFor(w, pinMap)] &&
            b.pinned == if M.PinOf(pinMap, w.server) then a.pinned + {name} else a.pinned - {name}
  {
    EntriesSnoc(seen, pinMap, name, w);
    AddSnoc(r.tools, M.Entries(seen), name, M.Mcp(w));
    AddSnoc(r.metadata, M.Metas(seen, pinMap), name, M.MetaFor(w, pinMap));
    PinnedSnoc(r.pinned, seen, pinMap, name, w);
  }

  lemma AddSnoc<V>(a: map<string, V>, b: map<string, V>, k: string, v: V)
    ensures a + b[k := v] == (a + b)[k := v]
  {
  }

  lemma EntriesSnoc(seen: map<string, Wrapper>, pinMap: map<string, bool>, name: string, w: Wrapper)
    ensures M.Entries(seen[name := w]) == M.Entries(seen)[name := M.Mcp(w)]
    ensures M.Metas(seen[name := w], pinMap) == M.Metas(seen, pinMap)[name := M.MetaFor(w, pinMap)]
  {
  }

  lemma PinnedSnoc(pinned: set<string>, seen: map<string, Wrapper>, pinMap: map<string, bool>, name: string, w: Wrapper)
    requires name !in seen
    ensures var more := seen[name := w];
            var a := (pinned - seen.Keys) + M.Pins(seen, pinMap);
            (pinned - more.Keys) + M.Pins(more, pinMap) ==
            if M.PinOf(pinMap, w.server) then a + {name} else a - {name}
  {
  }
}
