/** Reconnecting MCP servers (cogtrix_core/mcp_client.py). The heartbeat and any number of failed tool calls
    reconnect concurrently on one event loop, under one lock per server; servers are also disconnected and
    restarted, without that lock. A step runs up to the next await. A handle is a connection object whose
    exit stack has been entered and not closed. */
module McpReconnect {
  import opened Options

  datatype Kind = Reconnect | Disconnect | Restart

  datatype Pc =
    | Begin | WantLock
    | Accepted                // a restart that found its server configured, not yet on the loop
    | Closing(stale: nat)       // awaiting close() of the handle just popped
    | Creating                // about to open a new handle
    | Connecting(handle: nat) // awaiting connect()
    | Cleaning(handle: nat)   // awaiting close() after a failed connect()
    | Finished | Failed

  datatype Task = Task(kind: Kind, server: string, pc: Pc)

  datatype State = State(
    connections: map<string, nat>, open: set<nat>, nextHandle: nat, locks: map<string, nat>,
    tasks: seq<Task>, configs: set<string>, shuttingDown: bool)

  /** `Step(t, ok)` moves task t; `ok` tells how a pending connect() ends. */
  datatype Label = Spawn(kind: Kind, server: string) | Step(t: nat, ok: bool) | ShutDown | Configure(server: string)

  /** The handle a task alone refers to. */
  function Holding(pc: Pc): Option<nat> {
    match pc
    case Closing(h) => Some(h)
    case Connecting(h) => Some(h)
    case Cleaning(h) => Some(h)
    case _ => None
  }

  predicate Inside(pc: Pc) { pc.Closing? || pc.Creating? || pc.Connecting? || pc.Cleaning? }

  predicate Done(pc: Pc) { pc.Finished? || pc.Failed? }

  /** What a step of a task leaves behind. */
  datatype Move = Move(pc: Pc, connections: map<string, nat>, open: set<nat>, nextHandle: nat,
                       locks: map<string, nat>, configs: set<string>)

  function Stay(s: State, pc: Pc): Move {
    Move(pc, s.connections, s.open, s.nextHandle, s.locks, s.configs)
  }

  /** `self._connections.pop(server, None)`, then close what was popped. */
  function Pop(s: State, server: string, empty: Pc): Move {
    if server in s.connections
    then Stay(s, Closing(s.connections[server])).(connections := s.connections - {server})
    else Stay(s, empty)
  }

  function Release(m: Move, server: string): Move { m.(locks := m.locks - {server}) }

  function BeginTask(s: State, k: Task): Move {
    match k.kind
    case Reconnect =>
      if s.shuttingDown then Stay(s, Finished)
      else if k.server !in s.configs then Stay(s, Failed)
      else Stay(s, WantLock)
    case Disconnect => Pop(s, k.server, Finished).(configs := s.configs - {k.server})
    case Restart => Stay(s, if k.server in s.configs then Accepted else Finished)
  }

  /** A restart reads the configuration only after the old connection is closed; by then it may be gone, which
      ends the restart with a `KeyError`. A reconnect has read it before. */
  function AfterClose(s: State, k: Task): Pc {
    match k.kind
    case Reconnect => Creating
    case Disconnect => Finished
    case Restart => if k.server in s.configs then Creating else Failed
  }

  function TaskMove(s: State, t: nat, k: Task, ok: bool): Option<Move> {
    match k.pc
    case Begin => Some(BeginTask(s, k))
    case WantLock =>
      if k.server in s.locks then None
      else if s.shuttingDown then Some(Stay(s, Finished))
      else Some(Pop(s, k.server, Creating).(locks := s.locks[k.server := t]))
    case Accepted => Some(Pop(s, k.server, AfterClose(s, k)))
    case Closing(stale) => Some(Stay(s, AfterClose(s, k)).(open := s.open - {stale}))
    case Creating =>
      Some(Stay(s, Connecting(s.nextHandle)).(open := s.open + {s.nextHandle}, nextHandle := s.nextHandle + 1))
    case Connecting(h) =>
      if ok then
        var m := Stay(s, Finished).(connections := s.connections[k.server := h]);
        Some(if k.kind.Reconnect? then Release(m, k.server) else m)
      else if k.kind.Reconnect? then Some(Stay(s, Cleaning(h)))
      else Some(Stay(s, Finished))
    case Cleaning(h) => Some(Release(Stay(s, Failed).(open := s.open - {h}), k.server))
    case Finished => None
    case Failed => None
  }

  function Moved(s: State, t: nat, m: Move): State
    requires t < |s.tasks|
  {
    s.(tasks := s.tasks[t := s.tasks[t].(pc := m.pc)], connections := m.connections, open := m.open,
       nextHandle := m.nextHandle, locks := m.locks, configs := m.configs)
  }

  function Next(s: State, l: Label): Option<State> {
    match l
    case Spawn(kind, server) => Some(s.(tasks := s.tasks + [Task(kind, server, Begin)]))
    case ShutDown => Some(s.(shuttingDown := true))
    case Configure(server) => Some(s.(configs := s.configs + {server}))
    case Step(t, ok) =>
      if t >= |s.tasks| then None
      else
        var m := TaskMove(s, t, s.tasks[t], ok);
        if m.None? then None else Some(Moved(s, t, m.value))
  }

  function Run(s0: State, tr: seq<Label>): Option<State> {
    if tr == [] then Some(s0)
    else
      var before := Run(s0, tr[..|tr| - 1]);
      if before.None? then None else Next(before.value, tr[|tr| - 1])
  }

  // ---------------------------------------------------------------------------------------------
  // Handles
  // ---------------------------------------------------------------------------------------------

  ghost predicate Held(s: State, h: nat) {
    exists t: nat :: t < |s.tasks| && Holding(s.tasks[t].pc) == Some(h)
  }

  ghost predicate HeldByOther(s: State, t: nat, h: nat) {
    exists u: nat :: u < |s.tasks| && u != t && Holding(s.tasks[u].pc) == Some(h)
  }

  /** An open handle that nobody refers to any more. */
  ghost predicate Lost(s: State, h: nat) { h in s.open && h !in s.connections.Values && !Held(s, h) }

  ghost function LostSet(s: State): set<nat> { set h | h in s.open && Lost(s, h) }

  ghost predicate Injective(m: map<string, nat>) { forall a, b :: a in m && b in m && a != b ==> m[a] != m[b] }

  /** Installed and held handles are open, and no handle is referred to twice. */
  ghost predicate HandlesOk(s: State) {
    s.connections.Values <= s.open && Injective(s.connections) && (forall h :: h in s.open ==> h < s.nextHandle) &&
    forall t: nat :: t < |s.tasks| ==> HolderOk(s, t)
  }

  ghost predicate HolderOk(s: State, t: nat)
    requires t < |s.tasks|
  {
    var h := Holding(s.tasks[t].pc);
    h.Some? ==> h.value in s.open && h.value !in s.connections.Values && !HeldByOther(s, t, h.value)
  }

  predicate Initial(s: State) {
    s.tasks == [] && s.locks == map[] && s.open == s.connections.Values &&
    (forall h :: h in s.open ==> h < s.nextHandle) &&
    forall a, b :: a in s.connections && b in s.connections && a != b ==> s.connections[a] != s.connections[b]
  }

  /** The handle a step loses: one overwritten by the connection that is installed over it, or the one a restart
      has opened and forgets when it cannot connect. */
  function NewlyLost(s: State, l: Label): set<nat> {
    if !l.Step? || l.t >= |s.tasks| || !s.tasks[l.t].pc.Connecting? then {}
    else
      var k := s.tasks[l.t];
      if l.ok then (if k.server in s.connections then {s.connections[k.server]} else {})
      else if k.kind.Reconnect? then {} else {k.pc.handle}
  }

  /** How many steps of a run lost a handle. */
  function Losses(s0: State, tr: seq<Label>): nat {
    if tr == [] then 0
    else
      var pre := tr[..|tr| - 1];
      Losses(s0, pre) + match Run(s0, pre) case None => 0 case Some(s) => |NewlyLost(s, tr[|tr| - 1])|
  }

  lemma RemovedValue(m: map<string, nat>, k: string)
    requires Injective(m)
    ensures (m - {k}).Values == m.Values - (if k in m then {m[k]} else {})
  {
    forall v | v in m.Values && !(k in m && v == m[k]) ensures v in (m - {k}).Values {
      var a :| a in m && m[a] == v;
      assert (m - {k})[a] == v;
    }
  }

  lemma AddedValue(m: map<string, nat>, k: string, v: nat)
    requires Injective(m) && v !in m.Values
    ensures m[k := v].Values == m.Values - (if k in m then {m[k]} else {}) + {v}
    ensures Injective(m[k := v])
  {
    assert m[k := v][k] == v;
    assert forall a :: a in m ==> m[a] in m.Values;
    forall x | x in m.Values && !(k in m && x == m[k]) ensures x in m[k := v].Values {
      var a :| a in m && m[a] == x;
      assert m[k := v][a] == x;
    }
  }

  /** The other tasks' handles stay what they are when one task moves. */
  lemma OthersHold(s: State, t: nat, s': State, h: nat)
    requires t < |s.tasks| == |s'.tasks| && forall u: nat :: u < |s.tasks| && u != t ==> s'.tasks[u] == s.tasks[u]
    ensures Held(s, h) <==> HeldByOther(s, t, h) || Holding(s.tasks[t].pc) == Some(h)
    ensures Held(s', h) <==> HeldByOther(s, t, h) || Holding(s'.tasks[t].pc) == Some(h)
    ensures HeldByOther(s', t, h) <==> HeldByOther(s, t, h)
  {
    if HeldByOther(s, t, h) {
      var u: nat :| u < |s.tasks| && u != t && Holding(s.tasks[u].pc) == Some(h);
      assert Holding(s'.tasks[u].pc) == Some(h);
    }
  }

  /** What a move of task `t` owes for the handles to stay in order. */
  lemma HandlesAfter(s: State, t: nat, s': State)
    requires HandlesOk(s) && t < |s.tasks| == |s'.tasks|
    requires forall u: nat :: u < |s.tasks| && u != t ==> s'.tasks[u] == s.tasks[u]
    requires s'.connections.Values <= s'.open && Injective(s'.connections) && forall h :: h in s'.open ==> h < s'.nextHandle
    requires var was, now := Holding(s.tasks[t].pc), Holding(s'.tasks[t].pc);
      (forall h :: h in s'.connections.Values ==> h in s.connections.Values || was == Some(h)) &&
      (forall h :: h in s.open && was != Some(h) ==> h in s'.open) &&
      (now.Some? ==> now.value in s'.open && now.value !in s'.connections.Values && !HeldByOther(s, t, now.value))
    ensures HandlesOk(s')
  {
    var was, now := Holding(s.tasks[t].pc), Holding(s'.tasks[t].pc);
    assert HolderOk(s, t);
    forall u: nat | u < |s'.tasks| ensures HolderOk(s', u) {
      if u == t {
        if now.Some? { OthersHold(s, t, s', now.value); }
      } else if Holding(s.tasks[u].pc).Some? {
        var h := Holding(s.tasks[u].pc).value;
        assert HolderOk(s, u) && HeldByOther(s, t, h);
        assert was != Some(h);
        OthersKeepAway(s, t, s', u, h);
      }
    }
  }

  lemma OthersKeepAway(s: State, t: nat, s': State, u: nat, h: nat)
    requires t < |s.tasks| == |s'.tasks| && forall v: nat :: v < |s.tasks| && v != t ==> s'.tasks[v] == s.tasks[v]
    requires u < |s.tasks| && u != t && !HeldByOther(s, u, h) && Holding(s'.tasks[t].pc) != Some(h)
    ensures !HeldByOther(s', u, h)
  {
    forall v: nat | v < |s'.tasks| && v != u ensures Holding(s'.tasks[v].pc) != Some(h) {
      assert v != t ==> s'.tasks[v] == s.tasks[v];
    }
  }

  // ---------------------------------------------------------------------------------------------
  // What a step does to the handles
  // ---------------------------------------------------------------------------------------------

  /** Waiting, giving up, or taking the lock of a server that has no connection. */
  lemma QuietMove(s: State, t: nat, s': State)
    requires HandlesOk(s) && t < |s.tasks| == |s'.tasks|
    requires forall u: nat :: u < |s.tasks| && u != t ==> s'.tasks[u] == s.tasks[u]
    requires s'.connections == s.connections && s'.open == s.open && s'.nextHandle == s.nextHandle
    requires Holding(s'.tasks[t].pc) == Holding(s.tasks[t].pc)
    ensures HandlesOk(s') && forall h :: Lost(s', h) <==> Lost(s, h)
  {
    assert HolderOk(s, t);
    HandlesAfter(s, t, s');
    forall h ensures Lost(s', h) <==> Lost(s, h) { OthersHold(s, t, s', h); }
  }

  /** The handle of a server passes from the connection table to the task that popped it. */
  lemma PopMove(s: State, t: nat, s': State, server: string)
    requires HandlesOk(s) && t < |s.tasks| == |s'.tasks| && server in s.connections
    requires forall u: nat :: u < |s.tasks| && u != t ==> s'.tasks[u] == s.tasks[u]
    requires s'.connections == s.connections - {server} && s'.open == s.open && s'.nextHandle == s.nextHandle
    requires Holding(s.tasks[t].pc) == None && Holding(s'.tasks[t].pc) == Some(s.connections[server])
    ensures HandlesOk(s') && forall h :: Lost(s', h) <==> Lost(s, h)
  {
    var popped := s.connections[server];
    RemovedValue(s.connections, server);
    forall u: nat | u < |s.tasks| ensures Holding(s.tasks[u].pc) != Some(popped) { assert HolderOk(s, u); }
    HandlesAfter(s, t, s');
    forall h ensures Lost(s', h) <==> Lost(s, h) { OthersHold(s, t, s', h); }
  }

  /** Closing the handle the task holds, and no other. */
  lemma CloseMove(s: State, t: nat, s': State, closed: nat)
    requires HandlesOk(s) && t < |s.tasks| == |s'.tasks|
    requires forall u: nat :: u < |s.tasks| && u != t ==> s'.tasks[u] == s.tasks[u]
    requires s'.connections == s.connections && s'.open == s.open - {closed} && s'.nextHandle == s.nextHandle
    requires Holding(s.tasks[t].pc) == Some(closed) && Holding(s'.tasks[t].pc) == None
    ensures HandlesOk(s') && forall h :: Lost(s', h) <==> Lost(s, h)
  {
    assert HolderOk(s, t);
    HandlesAfter(s, t, s');
    forall h ensures Lost(s', h) <==> Lost(s, h) { OthersHold(s, t, s', h); }
  }

  /** Opening a handle nobody has had before. */
  lemma CreateMove(s: State, t: nat, s': State)
    requires HandlesOk(s) && t < |s.tasks| == |s'.tasks|
    requires forall u: nat :: u < |s.tasks| && u != t ==> s'.tasks[u] == s.tasks[u]
    requires s'.connections == s.connections && s'.open == s.open + {s.nextHandle} && s'.nextHandle == s.nextHandle + 1
    requires Holding(s.tasks[t].pc) == None && Holding(s'.tasks[t].pc) == Some(s.nextHandle)
    ensures HandlesOk(s') && forall h :: Lost(s', h) <==> Lost(s, h)
  {
    forall u: nat | u < |s.tasks| ensures Holding(s.tasks[u].pc) != Some(s.nextHandle) { assert HolderOk(s, u); }
    HandlesAfter(s, t, s');
    forall h ensures Lost(s', h) <==> Lost(s, h) { OthersHold(s, t, s', h); }
  }

  /** Installing a connection loses the one it overwrites, if there is one. */
  lemma InstallMove(s: State, t: nat, s': State, server: string, h0: nat)
    requires HandlesOk(s) && t < |s.tasks| == |s'.tasks|
    requires forall u: nat :: u < |s.tasks| && u != t ==> s'.tasks[u] == s.tasks[u]
    requires s'.connections == s.connections[server := h0] && s'.open == s.open && s'.nextHandle == s.nextHandle
    requires Holding(s.tasks[t].pc) == Some(h0) && Holding(s'.tasks[t].pc) == None
    ensures HandlesOk(s')
    ensures forall h :: Lost(s', h) <==> Lost(s, h) || (server in s.connections && h == s.connections[server])
  {
    assert HolderOk(s, t);
    AddedValue(s.connections, server, h0);
    HandlesAfter(s, t, s');
    forall h ensures Lost(s', h) <==> Lost(s, h) || (server in s.connections && h == s.connections[server]) {
      OthersHold(s, t, s', h);
      if server in s.connections && h == s.connections[server] { NotHeld(s, h); }
    }
  }

  lemma NotHeld(s: State, h: nat)
    requires HandlesOk(s) && h in s.connections.Values
    ensures !Held(s, h)
  {
    forall u: nat | u < |s.tasks| ensures Holding(s.tasks[u].pc) != Some(h) { assert HolderOk(s, u); }
  }

  /** A restart that cannot connect forgets the handle it opened. */
  lemma ForgetMove(s: State, t: nat, s': State, h0: nat)
    requires HandlesOk(s) && t < |s.tasks| == |s'.tasks|
    requires forall u: nat :: u < |s.tasks| && u != t ==> s'.tasks[u] == s.tasks[u]
    requires s'.connections == s.connections && s'.open == s.open && s'.nextHandle == s.nextHandle
    requires Holding(s.tasks[t].pc) == Some(h0) && Holding(s'.tasks[t].pc) == None
    ensures HandlesOk(s') && forall h :: Lost(s', h) <==> Lost(s, h) || h == h0
  {
    assert HolderOk(s, t);
    HandlesAfter(s, t, s');
    forall h ensures Lost(s', h) <==> Lost(s, h) || h == h0 { OthersHold(s, t, s', h); }
  }

  lemma TaskStep(s: State, t: nat, ok: bool, s': State)
    requires HandlesOk(s) && Next(s, Step(t, ok)) == Some(s')
    ensures HandlesOk(s')
    ensures forall h :: Lost(s', h) <==> Lost(s, h) || h in NewlyLost(s, Step(t, ok))
  {
    var k := s.tasks[t];
    match k.pc
    case Connecting(h0) =>
      if ok {
        InstallMove(s, t, s', k.server, h0);
      } else if k.kind.Reconnect? {
        QuietMove(s, t, s');
      } else {
        ForgetMove(s, t, s', h0);
      }
    case Creating => CreateMove(s, t, s');
    case Closing(h0) => CloseMove(s, t, s', h0);
    case Cleaning(h0) => CloseMove(s, t, s', h0);
    case _ => StartStep(s, t, ok, s');
  }

  lemma StartStep(s: State, t: nat, ok: bool, s': State)
    requires HandlesOk(s) && Next(s, Step(t, ok)) == Some(s') && s.tasks[t].pc in {Begin, WantLock, Accepted}
    ensures HandlesOk(s') && forall h :: Lost(s', h) <==> Lost(s, h)
  {
    if s'.tasks[t].pc.Closing? {
      PopMove(s, t, s', s.tasks[t].server);
    } else {
      QuietMove(s, t, s');
    }
  }

  lemma OtherStep(s: State, l: Label, s': State)
    requires HandlesOk(s) && Next(s, l) == Some(s') && !l.Step?
    ensures HandlesOk(s') && forall h :: Lost(s', h) <==> Lost(s, h)
  {
    forall h: nat ensures Held(s', h) <==> Held(s, h) {
      if Held(s, h) {
        var u: nat :| u < |s.tasks| && Holding(s.tasks[u].pc) == Some(h);
        assert Holding(s'.tasks[u].pc) == Some(h);
      }
    }
    forall u: nat | u < |s'.tasks| ensures HolderOk(s', u) {
      if u < |s.tasks| && Holding(s.tasks[u].pc).Some? {
        assert HolderOk(s, u);
        assert forall v: nat :: v < |s'.tasks| && Holding(s'.tasks[v].pc).Some? ==> v < |s.tasks| && s'.tasks[v] == s.tasks[v];
      }
    }
  }

  // ---------------------------------------------------------------------------------------------
  // Exactly how many handles a run loses
  // ---------------------------------------------------------------------------------------------

  lemma LossStep(s: State, l: Label, s': State)
    requires HandlesOk(s) && Next(s, l) == Some(s')
    ensures HandlesOk(s') && |LostSet(s')| == |LostSet(s)| + |NewlyLost(s, l)|
  {
    var lost := NewlyLost(s, l);
    if l.Step? { TaskStep(s, l.t, l.ok, s'); } else { OtherStep(s, l, s'); }
    assert LostSet(s') == LostSet(s) + lost;
    forall h | h in lost ensures !Lost(s, h) {
      if h !in s.connections.Values {
        assert Holding(s.tasks[l.t].pc) == Some(h);
      }
    }
    assert LostSet(s) !! lost;
  }

  /** In every run of reconnects, disconnects and restarts, in any interleaving, the open handles nobody refers to
      are as many as the steps that installed a connection over another, or were a restart's failure to connect. */
  lemma {:induction false} HandlesLostExactly(s0: State, tr: seq<Label>)
    requires Initial(s0) && Run(s0, tr).Some?
    ensures HandlesOk(Run(s0, tr).value) && |LostSet(Run(s0, tr).value)| == Losses(s0, tr)
  {
    if tr == [] {
      assert LostSet(s0) == {};
    } else {
      HandlesLostExactly(s0, tr[..|tr| - 1]);
      LossStep(Run(s0, tr[..|tr| - 1]).value, tr[|tr| - 1], Run(s0, tr).value);
    }
  }

  /** Step `k` of the run loses a handle. */
  ghost predicate LosesAt(s0: State, tr: seq<Label>, k: nat) {
    k < |tr| && Run(s0, tr[..k]).Some? && NewlyLost(Run(s0, tr[..k]).value, tr[k]) != {}
  }

  lemma {:induction false} LossesAre(s0: State, tr: seq<Label>)
    requires Run(s0, tr).Some?
    ensures Losses(s0, tr) == 0 <==> forall k: nat :: !LosesAt(s0, tr, k)
  {
    if tr != [] {
      var n := |tr| - 1;
      var pre := tr[..n];
      LossesAre(s0, pre);
      forall k: nat | k < n ensures LosesAt(s0, tr, k) <==> LosesAt(s0, pre, k) {
        assert pre[..k] == tr[..k];
      }
      assert LosesAt(s0, tr, n) <==> NewlyLost(Run(s0, pre).value, tr[n]) != {};
    }
  }

  /** So a run keeps every handle if and only if no step of it loses one. */
  lemma NoHandleIsLostIff(s0: State, tr: seq<Label>)
    requires Initial(s0) && Run(s0, tr).Some?
    ensures (forall h :: !Lost(Run(s0, tr).value, h)) <==> forall k: nat :: !LosesAt(s0, tr, k)
  {
    var s := Run(s0, tr).value;
    HandlesLostExactly(s0, tr);
    LossesAre(s0, tr);
    assert |LostSet(s)| == 0 <==> LostSet(s) == {};
    assert LostSet(s) == {} <==> forall h :: !Lost(s, h) by {
      assert forall h :: Lost(s, h) ==> h in LostSet(s);
    }
  }

  // ---------------------------------------------------------------------------------------------
  // Locks
  // ---------------------------------------------------------------------------------------------

  ghost predicate TaskOk(s: State, t: nat)
    requires t < |s.tasks|
  {
    var k := s.tasks[t];
    (k.kind.Reconnect? && Inside(k.pc) <==> k.server in s.locks && s.locks[k.server] == t) &&
    (k.pc.WantLock? || k.pc.Cleaning? ==> k.kind.Reconnect?) && (k.pc.Accepted? ==> k.kind.Restart?) &&
    (k.kind.Disconnect? ==> !k.pc.Creating? && !k.pc.Connecting?)
  }

  /** A reconnect is inside exactly when it owns its server's lock. */
  ghost predicate LocksOk(s: State) {
    (forall a :: a in s.locks ==> s.locks[a] < |s.tasks| && s.tasks[s.locks[a]].server == a) &&
    forall t: nat :: t < |s.tasks| ==> TaskOk(s, t)
  }

  lemma LockStep(s: State, l: Label, s': State)
    requires LocksOk(s) && Next(s, l) == Some(s')
    ensures LocksOk(s')
  {
    forall t: nat | t < |s'.tasks| ensures TaskOk(s', t) {
      if l.Step? && t == l.t { MoverLock(s, t, l.ok, s'); } else { OtherLock(s, l, s', t); }
    }
    if l.Step? { assert TaskOk(s, l.t); }
  }

  lemma MoverLock(s: State, t: nat, ok: bool, s': State)
    requires LocksOk(s) && Next(s, Step(t, ok)) == Some(s')
    ensures TaskOk(s', t)
  {
    assert TaskOk(s, t);
  }

  lemma OtherLock(s: State, l: Label, s': State, t: nat)
    requires LocksOk(s) && Next(s, l) == Some(s') && t < |s'.tasks| && !(l.Step? && t == l.t)
    ensures TaskOk(s', t)
  {
    if t < |s.tasks| { assert TaskOk(s, t); }
    if l.Step? { assert TaskOk(s, l.t); }
  }

  /** The invariant of the locks, over every run. */
  lemma {:induction false} RunKeepsLocks(s0: State, tr: seq<Label>)
    requires Initial(s0) && Run(s0, tr).Some?
    ensures LocksOk(Run(s0, tr).value)
  {
    if tr != [] {
      RunKeepsLocks(s0, tr[..|tr| - 1]);
      LockStep(Run(s0, tr[..|tr| - 1]).value, tr[|tr| - 1], Run(s0, tr).value);
    }
  }

  /** Two reconnects of one server are never both between taking and releasing its lock. */
  lemma ReconnectsExclude(s0: State, tr: seq<Label>, t: nat, u: nat)
    requires Initial(s0) && Run(s0, tr).Some?
    requires var ts := Run(s0, tr).value.tasks;
             t < |ts| && u < |ts| && ts[t].server == ts[u].server && ts[t].kind.Reconnect? &&
             ts[u].kind.Reconnect? && Inside(ts[t].pc) && Inside(ts[u].pc)
    ensures t == u
  {
    RunKeepsLocks(s0, tr);
    assert TaskOk(Run(s0, tr).value, t) && TaskOk(Run(s0, tr).value, u);
  }

  /** Steps a task inside the lock has yet to take at most. */
  function StepsLeft(pc: Pc): nat {
    match pc
    case Closing(_) => 4
    case Creating => 3
    case Connecting(_) => 2
    case Cleaning(_) => 1
    case _ => 0
  }

  /** A server's lock is always given back: whatever the connect attempt does, its owner can move and is
      done after at most four steps, and then the lock is free. */
  lemma OwnerReleases(s0: State, tr: seq<Label>, server: string, ok: bool)
    requires Initial(s0) && Run(s0, tr).Some? && server in Run(s0, tr).value.locks
    ensures var s := Run(s0, tr).value;
            var t := s.locks[server];
            var after := Next(s, Step(t, ok));
            t < |s.tasks| && after.Some? && t < |after.value.tasks| &&
            StepsLeft(after.value.tasks[t].pc) < StepsLeft(s.tasks[t].pc) <= 4 &&
            (StepsLeft(after.value.tasks[t].pc) == 0 <==> server !in after.value.locks)
  {
    RunKeepsLocks(s0, tr);
    assert TaskOk(Run(s0, tr).value, Run(s0, tr).value.locks[server]);
  }

  // ---------------------------------------------------------------------------------------------
  // Reconnects and disconnects alone lose nothing
  // ---------------------------------------------------------------------------------------------

  ghost predicate NoRestart(tr: seq<Label>) { forall l :: l in tr && l.Spawn? ==> !l.kind.Restart? }

  /** A reconnect that is inside has taken the server's connection out. */
  ghost predicate Alone(s: State, t: nat)
    requires t < |s.tasks|
  {
    !s.tasks[t].kind.Restart? && (s.tasks[t].kind.Reconnect? && Inside(s.tasks[t].pc) ==> s.tasks[t].server !in s.connections)
  }

  lemma AloneStep(s: State, l: Label, s': State, u: nat)
    requires LocksOk(s) && Next(s, l) == Some(s') && (l.Spawn? ==> !l.kind.Restart?) && u < |s'.tasks|
    requires forall t: nat :: t < |s.tasks| ==> Alone(s, t)
    ensures Alone(s', u)
  {
    if u < |s.tasks| { assert Alone(s, u) && TaskOk(s, u); }
    if l.Step? { assert Alone(s, l.t) && TaskOk(s, l.t); }
  }

  lemma {:induction false} RunKeepsAlone(s0: State, tr: seq<Label>)
    requires Initial(s0) && NoRestart(tr) && Run(s0, tr).Some?
    ensures forall t: nat :: t < |Run(s0, tr).value.tasks| ==> Alone(Run(s0, tr).value, t)
  {
    if tr != [] {
      var pre, l := tr[..|tr| - 1], tr[|tr| - 1];
      assert l in tr && forall x :: x in pre ==> x in tr;
      RunKeepsAlone(s0, pre);
      RunKeepsLocks(s0, pre);
      forall u: nat | u < |Run(s0, tr).value.tasks| ensures Alone(Run(s0, tr).value, u) {
        AloneStep(Run(s0, pre).value, l, Run(s0, tr).value, u);
      }
    }
  }

  /** Installing a connection never overwrites one: the server has none at that moment. */
  lemma InstallNeverOverwrites(s0: State, tr: seq<Label>, t: nat)
    requires Initial(s0) && NoRestart(tr) && Run(s0, tr).Some?
    requires t < |Run(s0, tr).value.tasks| && Run(s0, tr).value.tasks[t].pc.Connecting?
    ensures var s := Run(s0, tr).value;
            s.tasks[t].server !in s.connections &&
            Next(s, Step(t, true)).Some? &&
            Next(s, Step(t, true)).value.connections == s.connections[s.tasks[t].server := s.tasks[t].pc.handle]
  {
    RunKeepsLocks(s0, tr);
    RunKeepsAlone(s0, tr);
    assert TaskOk(Run(s0, tr).value, t) && Alone(Run(s0, tr).value, t);
  }

  /** In every interleaving of reconnects and disconnects every handle that is open is installed or held by a
      task, and every installed one is open. */
  lemma NoHandleIsLost(s0: State, tr: seq<Label>, h: nat)
    requires Initial(s0) && NoRestart(tr) && Run(s0, tr).Some?
    ensures var s := Run(s0, tr).value;
            (h in s.open ==> h in s.connections.Values || Held(s, h)) && s.connections.Values <= s.open
  {
    HandlesLostExactly(s0, tr);
    NoHandleIsLostIff(s0, tr);
    forall k: nat ensures !LosesAt(s0, tr, k) {
      if k < |tr| && Run(s0, tr[..k]).Some? { NothingLostAt(s0, tr, k); }
    }
    assert !Lost(Run(s0, tr).value, h);
  }

  lemma NothingLostAt(s0: State, tr: seq<Label>, k: nat)
    requires Initial(s0) && NoRestart(tr) && k < |tr| && Run(s0, tr[..k]).Some?
    ensures NewlyLost(Run(s0, tr[..k]).value, tr[k]) == {}
  {
    var s, l := Run(s0, tr[..k]).value, tr[k];
    assert NoRestart(tr[..k]);
    if l.Step? && l.t < |s.tasks| && s.tasks[l.t].pc.Connecting? {
      InstallNeverOverwrites(s0, tr[..k], l.t);
      RunKeepsAlone(s0, tr[..k]);
      RunKeepsLocks(s0, tr[..k]);
      assert Alone(s, l.t) && TaskOk(s, l.t);
    }
  }

  ghost predicate Quiescent(s: State) { forall t: nat :: t < |s.tasks| ==> Done(s.tasks[t].pc) }

  /** When no task is left unfinished, the open handles are the installed connections, one server each, and as many
      more as the run lost. */
  lemma QuiescentHandles(s0: State, tr: seq<Label>)
    requires Initial(s0) && Run(s0, tr).Some? && Quiescent(Run(s0, tr).value)
    ensures var s := Run(s0, tr).value;
            s.connections.Values <= s.open && |s.open| == |s.connections.Values| + Losses(s0, tr) && Injective(s.connections)
    ensures NoRestart(tr) ==> Run(s0, tr).value.open == Run(s0, tr).value.connections.Values
  {
    var s := Run(s0, tr).value;
    HandlesLostExactly(s0, tr);
    forall h ensures !Held(s, h) {
      assert forall t: nat :: t < |s.tasks| ==> Holding(s.tasks[t].pc) == None;
    }
    assert s.open == s.connections.Values + LostSet(s) && s.connections.Values !! LostSet(s);
    if NoRestart(tr) {
      forall h | h in s.open ensures h in s.connections.Values { NoHandleIsLost(s0, tr, h); }
    }
  }

  // ---------------------------------------------------------------------------------------------
  // restart, which does not take the lock
  // ---------------------------------------------------------------------------------------------

  /** The only task ever started is one restart. */
  predicate OnlyRestart(tr: seq<Label>) { Spawns(tr) <= [Restart] }

  function Spawns(tr: seq<Label>): seq<Kind> {
    if tr == [] then []
    else Spawns(tr[..|tr| - 1]) + if tr[|tr| - 1].Spawn? then [tr[|tr| - 1].kind] else []
  }

  /** Step `k` is a connect attempt that fails. */
  ghost predicate ConnectFailsAt(s0: State, tr: seq<Label>, k: nat) {
    k < |tr| && Run(s0, tr[..k]).Some? && tr[k].Step? && !tr[k].ok &&
    var s := Run(s0, tr[..k]).value;
    tr[k].t < |s.tasks| && s.tasks[tr[k].t].pc.Connecting?
  }

  /** One restart, at most one task, and its server taken out once it has begun. */
  ghost predicate OneRestart(s: State) {
    |s.tasks| <= 1 &&
    (s.tasks != [] ==>
      var k := s.tasks[0];
      k.kind.Restart? && !k.pc.WantLock? && (Inside(k.pc) ==> k.server !in s.connections))
  }

  lemma OneRestartStep(s: State, l: Label, s': State)
    requires OneRestart(s) && Next(s, l) == Some(s') && (l.Spawn? ==> s.tasks == [] && l.kind.Restart?)
    ensures OneRestart(s') && |s'.tasks| == |s.tasks| + if l.Spawn? then 1 else 0
  {
  }

  lemma {:induction false} RunKeepsOneRestart(s0: State, tr: seq<Label>)
    requires Initial(s0) && OnlyRestart(tr) && Run(s0, tr).Some?
    ensures OneRestart(Run(s0, tr).value) && |Run(s0, tr).value.tasks| == |Spawns(tr)|
  {
    if tr != [] {
      var pre, l := tr[..|tr| - 1], tr[|tr| - 1];
      SpawnsOfPrefix(tr, |pre|);
      RunKeepsOneRestart(s0, pre);
      assert l.Spawn? ==> Spawns(tr) == Spawns(pre) + [l.kind] && Spawns(tr)[|Spawns(pre)|] == l.kind;
      OneRestartStep(Run(s0, pre).value, l, Run(s0, tr).value);
    }
  }

  /** A restart that nothing else runs beside, whatever its connect attempts do, loses a handle if and only if
      one of them fails: it forgets the half-open handle without closing it. */
  lemma RestartAloneIsCleanIff(s0: State, tr: seq<Label>)
    requires Initial(s0) && OnlyRestart(tr) && Run(s0, tr).Some?
    ensures (forall h :: !Lost(Run(s0, tr).value, h)) <==> forall k: nat :: !ConnectFailsAt(s0, tr, k)
  {
    NoHandleIsLostIff(s0, tr);
    forall k: nat ensures LosesAt(s0, tr, k) <==> ConnectFailsAt(s0, tr, k) {
      if k < |tr| && Run(s0, tr[..k]).Some? {
        SpawnsOfPrefix(tr, k);
        RunKeepsOneRestart(s0, tr[..k]);
        OnlyFailuresLose(Run(s0, tr[..k]).value, tr[k]);
      }
    }
  }

  lemma OnlyFailuresLose(s: State, l: Label)
    requires OneRestart(s)
    ensures NewlyLost(s, l) != {} <==> l.Step? && !l.ok && l.t < |s.tasks| && s.tasks[l.t].pc.Connecting?
  {
    if l.Step? && l.t < |s.tasks| { assert s.tasks[l.t] == s.tasks[0]; }
  }

  lemma {:induction false} SpawnsOfPrefix(tr: seq<Label>, k: nat)
    requires k <= |tr|
    ensures Spawns(tr[..k]) <= Spawns(tr)
    decreases |tr|
  {
    if k == |tr| {
      assert tr[..k] == tr;
    } else {
      SpawnsOfPrefix(tr[..|tr| - 1], k);
      assert tr[..|tr| - 1][..k] == tr[..k];
    }
  }

  lemma Go(s0: State, tr: seq<Label>, s: State, l: Label) returns (tr': seq<Label>, s': State)
    requires Run(s0, tr) == Some(s) && Next(s, l).Some?
    ensures tr' == tr + [l] && Some(s') == Next(s, l) && Run(s0, tr') == Some(s')
  {
    tr', s' := tr + [l], Next(s, l).value;
    assert tr'[..|tr'| - 1] == tr;
  }

  /** The same for a step of task `t`. */
  lemma GoStep(s0: State, tr: seq<Label>, s: State, t: nat, ok: bool) returns (tr': seq<Label>, s': State)
    requires Run(s0, tr) == Some(s) && t < |s.tasks| && TaskMove(s, t, s.tasks[t], ok).Some?
    ensures tr' == tr + [Step(t, ok)] && Run(s0, tr') == Some(s')
    ensures s' == Moved(s, t, TaskMove(s, t, s.tasks[t], ok).value)
  {
    tr', s' := Go(s0, tr, s, Step(t, ok));
  }

  /** A restart that overlaps a reconnect of the same server can lose a handle even when both succeed: the
      later one overwrites the connection of the earlier. */
  lemma RestartRacesReconnect(server: string)
    ensures exists tr: seq<Label> ::
              var s0 := State(map[], {}, 0, map[], [], {server}, false);
              Initial(s0) && Run(s0, tr).Some? && Quiescent(Run(s0, tr).value) &&
              Run(s0, tr).value.open == {0, 1} && Run(s0, tr).value.connections == map[server := 1]
  {
    var s0 := State(map[], {}, 0, map[], [], {server}, false);
    var tr, s := Go(s0, [], s0, Spawn(Reconnect, server));
    tr, s := Go(s0, tr, s, Spawn(Restart, server));
    tr, s := Go(s0, tr, s, Step(0, true));
    tr, s := Go(s0, tr, s, Step(0, true));
    tr, s := Go(s0, tr, s, Step(0, true));
    assert s.tasks == [Task(Reconnect, server, Connecting(0)), Task(Restart, server, Begin)];
    assert s == State(map[], {0}, 1, map[server := 0], s.tasks, {server}, false);
    tr, s := RestartOverlaps(s0, tr, s, server);
  }

  lemma RestartOverlaps(s0: State, tr0: seq<Label>, s1: State, server: string)
    returns (tr: seq<Label>, s: State)
    requires Run(s0, tr0) == Some(s1)
    requires s1.tasks == [Task(Reconnect, server, Connecting(0)), Task(Restart, server, Begin)]
    requires s1 == State(map[], {0}, 1, map[server := 0], s1.tasks, {server}, false)
    ensures Run(s0, tr) == Some(s) && Quiescent(s) && s.open == {0, 1} && s.connections == map[server := 1]
  {
    tr, s := GoStep(s0, tr0, s1, 1, true);
    tr, s := GoStep(s0, tr, s, 1, true);
    tr, s := GoStep(s0, tr, s, 1, true);
    assert s.tasks == [Task(Reconnect, server, Connecting(0)), Task(Restart, server, Connecting(1))];
    tr, s := GoStep(s0, tr, s, 0, true);
    assert s.tasks == [Task(Reconnect, server, Finished), Task(Restart, server, Connecting(1))];
    tr, s := GoStep(s0, tr, s, 1, true);
    assert s.tasks == [Task(Reconnect, server, Finished), Task(Restart, server, Finished)];
  }

  // ---------------------------------------------------------------------------------------------
  // A disconnected server
  // ---------------------------------------------------------------------------------------------

  /** Task `t` has read the server's configuration, or will find it, and has yet to install a connection. */
  predicate StillConnects(s: State, t: nat, server: string) {
    t < |s.tasks| && s.tasks[t].server == server &&
    match s.tasks[t].pc
    case WantLock => !s.shuttingDown
    case Accepted => server in s.configs
    case Closing(_) => s.tasks[t].kind.Reconnect? || (s.tasks[t].kind.Restart? && server in s.configs)
    case Creating => true
    case Connecting(_) => true
    case _ => false
  }

  ghost predicate Pending(s: State, server: string) { exists t: nat :: StillConnects(s, t, server) }

  ghost predicate Gone(s: State, server: string) { server !in s.configs && server !in s.connections }

  /** A removed server comes back by itself, without being configured again. */
  ghost predicate ComesBack(s: State, server: string) {
    exists tr: seq<Label> :: Returns(s, server, tr)
  }

  ghost predicate Returns(s: State, server: string, tr: seq<Label>) {
    Configure(server) !in tr && Run(s, tr).Some? && server in Run(s, tr).value.connections
  }

  lemma GoneStep(s: State, l: Label, s': State, server: string)
    requires LocksOk(s) && Gone(s, server) && !Pending(s, server) && Next(s, l) == Some(s') && l != Configure(server)
    ensures Gone(s', server) && !Pending(s', server)
  {
    if l.Step? { assert TaskOk(s, l.t) && !StillConnects(s, l.t, server); }
    forall t: nat ensures !StillConnects(s', t, server) {
      if t < |s.tasks| { assert !StillConnects(s, t, server); }
    }
  }

  lemma {:induction false} GoneRun(s: State, tr: seq<Label>, server: string)
    requires LocksOk(s) && Gone(s, server) && !Pending(s, server) && Run(s, tr).Some? && Configure(server) !in tr
    ensures LocksOk(Run(s, tr).value) && Gone(Run(s, tr).value, server) && !Pending(Run(s, tr).value, server)
  {
    if tr != [] {
      var pre, l := tr[..|tr| - 1], tr[|tr| - 1];
      assert l in tr;
      GoneRun(s, pre, server);
      GoneStep(Run(s, pre).value, l, Run(s, tr).value, server);
      LockStep(Run(s, pre).value, l, Run(s, tr).value);
    }
  }

  /** A task past its pop can go on to install its connection. */
  lemma Connects(s0: State, tr0: seq<Label>, s1: State, t: nat, server: string) returns (tr: seq<Label>)
    requires Run(s0, tr0) == Some(s1) && StillConnects(s1, t, server) && !s1.tasks[t].pc.WantLock? && !s1.tasks[t].pc.Accepted?
    requires Configure(server) !in tr0
    ensures Returns(s0, server, tr)
  {
    var s := s1;
    tr := tr0;
    if s.tasks[t].pc.Closing? { tr, s := Go(s0, tr, s, Step(t, true)); }
    tr := Installs(s0, tr, s, t, server);
  }

  lemma Installs(s0: State, tr0: seq<Label>, s1: State, t: nat, server: string) returns (tr: seq<Label>)
    requires Run(s0, tr0) == Some(s1) && t < |s1.tasks| && s1.tasks[t].server == server
    requires s1.tasks[t].pc.Creating? || s1.tasks[t].pc.Connecting?
    requires Configure(server) !in tr0
    ensures Returns(s0, server, tr)
  {
    tr := tr0;
    var s := s1;
    if s.tasks[t].pc.Creating? {
      tr, s := Go(s0, tr0, s1, Step(t, true));
      assert s.tasks[t] == s1.tasks[t].(pc := Connecting(s1.nextHandle));
    }
    var s';
    tr, s' := Go(s0, tr, s, Step(t, true));
    assert s'.connections == s.connections[server := s.tasks[t].pc.handle];
  }

  lemma FreeWaiterConnects(s0: State, tr0: seq<Label>, s1: State, t: nat, server: string) returns (tr: seq<Label>)
    requires Run(s0, tr0) == Some(s1) && StillConnects(s1, t, server) && s1.tasks[t].pc.WantLock?
    requires server !in s1.locks && server !in s1.connections && Configure(server) !in tr0
    ensures Returns(s0, server, tr)
  {
    var s;
    tr, s := Go(s0, tr0, s1, Step(t, true));
    tr := Installs(s0, tr, s, t, server);
  }

  /** So can one that waits for the lock: its owner goes first, and may connect itself. */
  lemma WaiterConnects(s: State, t: nat, server: string) returns (tr: seq<Label>)
    requires LocksOk(s) && Gone(s, server) && StillConnects(s, t, server) && s.tasks[t].pc.WantLock?
    ensures Returns(s, server, tr)
  {
    if server !in s.locks {
      tr := FreeWaiterConnects(s, [], s, t, server);
    } else {
      var u := s.locks[server];
      assert TaskOk(s, u) && TaskOk(s, t);
      if s.tasks[u].pc.Cleaning? {
        var cur;
        tr, cur := Go(s, [], s, Step(u, true));
        tr := FreeWaiterConnects(s, tr, cur, t, server);
      } else {
        tr := Connects(s, [], s, u, server);
      }
    }
  }

  /** After a disconnect the server can come back, though nobody configures it again, if and only if some reconnect
      or restart had already read its configuration and has yet to finish: `disconnect` waits for none of them. A
      restart that is still closing the old connection has not, and will fail. */
  lemma DisconnectedComesBackIff(s0: State, tr: seq<Label>, server: string)
    requires Initial(s0) && Run(s0, tr).Some? && Gone(Run(s0, tr).value, server)
    ensures ComesBack(Run(s0, tr).value, server) <==> Pending(Run(s0, tr).value, server)
  {
    var s := Run(s0, tr).value;
    RunKeepsLocks(s0, tr);
    if Pending(s, server) {
      var t: nat :| StillConnects(s, t, server);
      if s.tasks[t].pc.WantLock? {
        var more := WaiterConnects(s, t, server);
      } else {
        var more := Connects(s, [], s, t, server);
      }
    } else {
      forall more: seq<Label> ensures !Returns(s, server, more) {
        if Configure(server) !in more && Run(s, more).Some? { GoneRun(s, more, server); }
      }
    }
  }

  /** A restart that has yet to read a configuration that is gone can only fail, and leaves every table as it is. */
  lemma RestartFindsNoConfiguration(s: State, t: nat, ok: bool)
    requires t < |s.tasks| && s.tasks[t].kind.Restart? && Gone(s, s.tasks[t].server)
    requires s.tasks[t].pc.Accepted? || s.tasks[t].pc.Closing?
    ensures var after := Next(s, Step(t, ok));
            after.Some? && after.value.tasks == s.tasks[t := s.tasks[t].(pc := Failed)] &&
            after.value.connections == s.connections && after.value.configs == s.configs
  {
  }

  /** A disconnect defeats a restart of the same server that is still closing the old connection. */
  lemma DisconnectDefeatsRestart(server: string) returns (tr: seq<Label>)
    ensures var s0 := State(map[server := 0], {0}, 1, map[], [], {server}, false);
            Initial(s0) && Run(s0, tr).Some? && Gone(Run(s0, tr).value, server) &&
            !ComesBack(Run(s0, tr).value, server) &&
            Run(s0, tr).value.tasks == [Task(Restart, server, Failed), Task(Disconnect, server, Finished)]
  {
    var s0 := State(map[server := 0], {0}, 1, map[], [], {server}, false);
    var s;
    tr, s := Go(s0, [], s0, Spawn(Restart, server));
    tr, s := GoStep(s0, tr, s, 0, true);
    tr, s := GoStep(s0, tr, s, 0, true);
    assert s.tasks == [Task(Restart, server, Closing(0))] && s.connections == map[];
    tr, s := Go(s0, tr, s, Spawn(Disconnect, server));
    assert s.tasks == [Task(Restart, server, Closing(0)), Task(Disconnect, server, Begin)];
    tr, s := Defeated(s0, tr, s, server);
    DisconnectedComesBackIff(s0, tr, server);
    assert forall t: nat :: !StillConnects(s, t, server);
  }

  lemma Defeated(s0: State, tr0: seq<Label>, s1: State, server: string) returns (tr: seq<Label>, s: State)
    requires Run(s0, tr0) == Some(s1) && server !in s1.connections
    requires s1.tasks == [Task(Restart, server, Closing(0)), Task(Disconnect, server, Begin)]
    ensures Run(s0, tr) == Some(s) && Gone(s, server)
    ensures s.tasks == [Task(Restart, server, Failed), Task(Disconnect, server, Finished)]
  {
    tr, s := GoStep(s0, tr0, s1, 1, true);
    assert s.tasks == [Task(Restart, server, Closing(0)), Task(Disconnect, server, Finished)];
    tr, s := GoStep(s0, tr, s, 0, true);
  }
}
