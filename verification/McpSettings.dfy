/** Every MCP tool in the live registry carries the settings of the server it came from: whether it asks for
    confirmation and whether it is pinned (cogtrix_core/mcp_client.py, cogtrix_core/api/mcp_runtime.py). */
module McpSettings {
  import opened Options
  import opened McpNaming
  import opened McpMirror

  predicate Offers(tools: seq<RemoteTool>, original: string) {
    exists t :: t in tools && t.name == original && t.wraps
  }

  /** The registry's entry of `n` is tool `original` of the server configured by `cfg`. */
  predicate Carries(r: Registry, n: string, server: string, confirm: bool, pin: bool, tools: seq<RemoteTool>) {
    n in r.tools && r.tools[n].Mcp? && n in r.metadata && r.metadata[n] == McpMeta(server, confirm, pin) &&
    (n in r.pinned <==> pin) &&
    var t := r.tools[n].wrapper;
    t.server == server && t.confirm == confirm && Offers(tools, t.original) &&
    (n == t.original || n == server + "_" + t.original)
  }

  /** A name mapped to a server carries that server's own settings, and is a tool the server now offers. */
  predicate SettingsAt(w: World, n: string) {
    n in w.m.serverOf ==>
      var s := w.m.serverOf[n];
      s in w.m.configs && s in w.m.connections &&
      Carries(w.r, n, s, w.m.configs[s].confirm, w.m.configs[s].pin, w.m.connections[s])
  }

  predicate Distinct(cfgs: seq<Config>) {
    forall i, j :: 0 <= i < |cfgs| && 0 <= j < |cfgs| && cfgs[i].name == cfgs[j].name ==> i == j
  }

  /** What the routes make sure of: servers are added under names that are not in use, and a restart honours the
      persisted pin flag, which is the configured one. */
  predicate Routed(w: World, op: Op) {
    OpOk(op) &&
    (op.OpConnect? ==> Distinct(op.cfgs) && forall c :: c in op.cfgs ==> c.name !in w.m.configs) &&
    (op.OpRestart? && op.server in w.m.configs ==> op.pin == w.m.configs[op.server].pin)
  }

  // ---------------------------------------------------------------------------------------------
  // Connecting
  // ---------------------------------------------------------------------------------------------

  /** Each server that answers is connected with its own tools under its own configuration, and one that does not
      is only configured; no other server is touched. */
  lemma {:induction false} ConnectInstalls(m: Manager, cfgs: seq<Config>, outcomes: seq<Option<seq<RemoteTool>>>, k: nat)
    requires |cfgs| == |outcomes| && Distinct(cfgs) && k < |cfgs|
    ensures var connections, configs := Connected(m.connections, cfgs, outcomes), Configured(m.configs, cfgs);
            var s := cfgs[k].name;
            s in configs && configs[s] == cfgs[k] &&
            (outcomes[k].Some? ==> s in connections && connections[s] == outcomes[k].value) &&
            (outcomes[k].None? ==> (s in connections <==> s in m.connections))
    decreases |cfgs|
  {
    var n := |cfgs| - 1;
    if k == n {
      ConnectSpares(m, cfgs[..n], outcomes[..n], cfgs[k].name);
    } else {
      ConnectInstalls(m, cfgs[..n], outcomes[..n], k);
    }
  }

  lemma {:induction false} ConnectSpares(m: Manager, cfgs: seq<Config>, outcomes: seq<Option<seq<RemoteTool>>>, s: string)
    requires |cfgs| == |outcomes| && forall c :: c in cfgs ==> c.name != s
    ensures var connections, configs := Connected(m.connections, cfgs, outcomes), Configured(m.configs, cfgs);
            (s in connections <==> s in m.connections) && (s in connections ==> connections[s] == m.connections[s]) &&
            (s in configs <==> s in m.configs) && (s in configs ==> configs[s] == m.configs[s])
  {
    if cfgs != [] {
      var n := |cfgs| - 1;
      assert cfgs[n] in cfgs;
      ConnectSpares(m, cfgs[..n], outcomes[..n], s);
    }
  }

  lemma {:induction false} PinsAreOwn(cfgs: seq<Config>, k: nat)
    requires Distinct(cfgs) && k < |cfgs|
    ensures PinOf(PinMap(cfgs), cfgs[k].name) == cfgs[k].pin
  {
    var n := |cfgs| - 1;
    if k < n { PinsAreOwn(cfgs[..n], k); }
  }

  ghost predicate ComesFrom(i: Item, cfgs: seq<Config>, connections: map<string, seq<RemoteTool>>, k: nat) {
    k < |cfgs| && i.server == cfgs[k].name && i.confirm == cfgs[k].confirm && i.server in connections &&
    i.tool in connections[i.server]
  }

  lemma {:induction false} ItemsComeFrom(cfgs: seq<Config>, connections: map<string, seq<RemoteTool>>, i: Item)
    requires i in AllItems(cfgs, connections)
    ensures exists k: nat :: ComesFrom(i, cfgs, connections, k)
  {
    var n := |cfgs| - 1;
    if i in AllItems(cfgs[..n], connections) {
      ItemsComeFrom(cfgs[..n], connections, i);
      var k: nat :| ComesFrom(i, cfgs[..n], connections, k);
      assert ComesFrom(i, cfgs, connections, k);
    } else {
      assert ComesFrom(i, cfgs, connections, n);
    }
  }

  lemma {:induction false} ItemsHave(cfgs: seq<Config>, connections: map<string, seq<RemoteTool>>, k: nat, j: nat)
    requires k < |cfgs| && cfgs[k].name in connections && j < |connections[cfgs[k].name]|
    ensures Item(cfgs[k].name, cfgs[k].confirm, connections[cfgs[k].name][j]) in AllItems(cfgs, connections)
  {
    var n := |cfgs| - 1;
    if k < n {
      ItemsHave(cfgs[..n], connections, k, j);
    } else {
      assert ServerItems(cfgs[n], connections[cfgs[n].name])[j] in AllItems(cfgs, connections);
    }
  }

  /** After connecting, every name either is as it was or carries the settings of one of the servers in the list and
      is a tool that this server offers. */
  lemma ConnectSets(w: World, cfgs: seq<Config>, outcomes: seq<Option<seq<RemoteTool>>>, n: string)
    requires |cfgs| == |outcomes| && Distinct(cfgs)
    ensures var w' := Apply(w, OpConnect(cfgs, outcomes));
            (SameEntry(w.r, w'.r, n) && (n in w'.m.serverOf <==> n in w.m.serverOf) &&
             (n in w.m.serverOf ==> w'.m.serverOf[n] == w.m.serverOf[n])) ||
            (exists k :: 0 <= k < |cfgs| && n in w'.m.serverOf && w'.m.serverOf[n] == cfgs[k].name && cfgs[k].name in w'.m.connections &&
                         Carries(w'.r, n, cfgs[k].name, cfgs[k].confirm, cfgs[k].pin, w'.m.connections[cfgs[k].name]))
  {
    var connections := Connected(w.m.connections, cfgs, outcomes);
    var items := AllItems(cfgs, connections);
    var named := NameAll(Connect, w.r.tools.Keys, items);
    RegisterAt(w.r, named, PinMap(cfgs), n);
    if n in named {
      NamesAreFresh(Connect, w.r.tools.Keys, items);
      var i :| i in items && NamedFor(n, named[n], i);
      ItemsComeFrom(cfgs, connections, i);
      var k: nat :| ComesFrom(i, cfgs, connections, k);
      PinsAreOwn(cfgs, k);
      assert Offers(connections[i.server], i.tool.name);
    }
  }

  // ---------------------------------------------------------------------------------------------
  // Restarting
  // ---------------------------------------------------------------------------------------------

  /** After a restart every name of the server carries its configured confirmation, the given pin, and is a tool it
      offered when it was connected again; nothing is left of a server that could not be. */
  lemma RestartSets(w: World, server: string, outcome: Option<seq<RemoteTool>>, pin: bool, n: string)
    requires Mirror(w) && server != "" && server in w.m.configs
    ensures var w' := Apply(w, OpRestart(server, outcome, pin));
            (n in w'.m.serverOf && w'.m.serverOf[n] == server ==>
               outcome.Some? && Carries(w'.r, n, server, w.m.configs[server].confirm, pin, outcome.value)) &&
            w'.m.configs == w.m.configs && (server in w'.m.connections <==> outcome.Some?) &&
            (outcome.Some? ==> w'.m.connections[server] == outcome.value)
  {
    var builtin := NotOwnedBy(w.r, server);
    var (m', named) := Restart(w.m, server, outcome, builtin);
    RegisterAt(Unregister(w.r, server), named, map[server := pin], n);
    if n in named {
      NamesOffered(w.m.configs[server].(name := server), outcome.value, builtin + Purged(w.m.serverOf, server).Keys, n);
    }
  }

  lemma NamesOffered(cfg: Config, tools: seq<RemoteTool>, base: set<string>, n: string)
    requires n in NameAll(List, base, ServerItems(cfg, tools))
    ensures var t := NameAll(List, base, ServerItems(cfg, tools))[n];
            t.server == cfg.name && t.confirm == cfg.confirm && Offers(tools, t.original) &&
            (n == t.original || n == cfg.name + "_" + t.original)
  {
    var items := ServerItems(cfg, tools);
    NamesAreFresh(List, base, items);
    var i :| i in items && NamedFor(n, NameAll(List, base, items)[n], i);
    assert Offers(tools, i.tool.name);
  }

  /** No offered tool is forgotten: afterwards its own name is in the registry. */
  lemma RestartOffersAll(w: World, server: string, outcome: Option<seq<RemoteTool>>, pin: bool, t: RemoteTool)
    requires Mirror(w) && server != "" && server in w.m.configs && outcome.Some? && t in outcome.value && t.wraps
    ensures t.name in Apply(w, OpRestart(server, outcome, pin)).r.tools
  {
    var builtin, others := NotOwnedBy(w.r, server), Purged(w.m.serverOf, server);
    var items := ServerItems(w.m.configs[server].(name := server), outcome.value);
    var j :| 0 <= j < |outcome.value| && outcome.value[j] == t;
    assert items[j].tool == t;
    OwnNameIsTaken(List, builtin + others.Keys, items, j);
    assert MirrorAt(w, t.name);
  }

  /** Nor is one at connection, unless its name is reserved. */
  lemma ConnectOffersAll(w: World, cfgs: seq<Config>, outcomes: seq<Option<seq<RemoteTool>>>, k: nat, t: RemoteTool)
    requires |cfgs| == |outcomes| && Distinct(cfgs) && k < |cfgs| && outcomes[k].Some? && t in outcomes[k].value
    requires Admitted(Connect, t)
    ensures t.name in Apply(w, OpConnect(cfgs, outcomes)).r.tools
  {
    var connections := Connected(w.m.connections, cfgs, outcomes);
    var items := AllItems(cfgs, connections);
    ConnectInstalls(w.m, cfgs, outcomes, k);
    var j :| 0 <= j < |outcomes[k].value| && outcomes[k].value[j] == t;
    ItemsHave(cfgs, connections, k, j);
    var x :| 0 <= x < |items| && items[x].tool == t;
    OwnNameIsTaken(Connect, w.r.tools.Keys, items, x);
  }

  // ---------------------------------------------------------------------------------------------
  // Every run
  // ---------------------------------------------------------------------------------------------

  lemma ConnectKeepsSettings(w: World, cfgs: seq<Config>, outcomes: seq<Option<seq<RemoteTool>>>, n: string)
    requires SettingsAt(w, n) && Routed(w, OpConnect(cfgs, outcomes))
    ensures SettingsAt(Apply(w, OpConnect(cfgs, outcomes)), n)
  {
    var w' := Apply(w, OpConnect(cfgs, outcomes));
    ConnectSets(w, cfgs, outcomes, n);
    if k :| 0 <= k < |cfgs| && n in w'.m.serverOf && w'.m.serverOf[n] == cfgs[k].name && cfgs[k].name in w'.m.connections &&
            Carries(w'.r, n, cfgs[k].name, cfgs[k].confirm, cfgs[k].pin, w'.m.connections[cfgs[k].name]) {
      ConnectInstalls(w.m, cfgs, outcomes, k);
    } else if n in w.m.serverOf {
      ConnectSpares(w.m, cfgs, outcomes, w.m.serverOf[n]);
    }
  }

  lemma RestartKeepsSettings(w: World, server: string, outcome: Option<seq<RemoteTool>>, pin: bool, n: string)
    requires Mirror(w) && SettingsAt(w, n) && Routed(w, OpRestart(server, outcome, pin))
    ensures SettingsAt(Apply(w, OpRestart(server, outcome, pin)), n)
  {
    var w' := Apply(w, OpRestart(server, outcome, pin));
    assert MirrorAt(w, n);
    if n in w.m.serverOf && w.m.serverOf[n] != server {
      RestartLeavesOthers(w, server, outcome, pin, n);
    } else if server in w.m.configs {
      RestartSets(w, server, outcome, pin, n);
      RestartMaps(w, server, outcome, pin, n);
    }
  }

  lemma RestartMaps(w: World, server: string, outcome: Option<seq<RemoteTool>>, pin: bool, n: string)
    requires server != "" && server in w.m.configs
    ensures var w' := Apply(w, OpRestart(server, outcome, pin));
            n in w'.m.serverOf && w'.m.serverOf[n] != server ==> n in w.m.serverOf && w.m.serverOf[n] != server
  {
    if outcome.Some? {
      NamedServer(List, NotOwnedBy(w.r, server) + Purged(w.m.serverOf, server).Keys, w.m.configs[server].(name := server), outcome.value);
    }
  }

  /** Every sequence of start-ups, additions, restarts and removals keeps the settings: whether a tool asks for
      confirmation, and whether it is pinned, is what its own server's configuration says. */
  lemma {:induction false} EveryRunKeepsSettings(w: World, ops: seq<Op>, n: string)
    requires Fresh(w) && (forall op :: op in ops ==> OpOk(op))
    requires forall k :: 0 <= k < |ops| ==> Routed(ApplyAll(w, ops[..k]), ops[k])
    ensures SettingsAt(ApplyAll(w, ops), n)
  {
    if ops != [] {
      var pre, op := ops[..|ops| - 1], ops[|ops| - 1];
      forall k | 0 <= k < |pre| ensures Routed(ApplyAll(w, pre[..k]), pre[k]) {
        assert pre[..k] == ops[..k];
      }
      EveryRunKeepsSettings(w, pre, n);
      EveryRunKeepsMirror(w, pre);
      assert Routed(ApplyAll(w, pre), op);
      StepKeepsSettings(ApplyAll(w, pre), op, n);
    }
  }

  lemma StepKeepsSettings(w: World, op: Op, n: string)
    requires Mirror(w) && SettingsAt(w, n) && Routed(w, op)
    ensures SettingsAt(Apply(w, op), n)
  {
    match op
    case OpConnect(cfgs, outcomes) => ConnectKeepsSettings(w, cfgs, outcomes, n);
    case OpRestart(server, outcome, pin) => RestartKeepsSettings(w, server, outcome, pin, n);
    case OpRemove(server) =>
  }
}
