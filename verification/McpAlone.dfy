/** What a reconnect, a disconnect and a restart each come to when they are left to their own steps
    (cogtrix_core/mcp_client.py), from any state that the protocol can reach. */
module McpAlone {
  import opened Options
  import opened McpReconnect

  /** The steps of task `t`, whose connect attempts all end in `ok`. */
  predicate Own(tr: seq<Label>, t: nat, ok: bool) { forall k :: 0 <= k < |tr| ==> tr[k] == Step(t, ok) }

  /** The handle installed for a server, if any. */
  function Installed(s: State, server: string): set<nat> {
    if server in s.connections then {s.connections[server]} else {}
  }

  /** Apart from the server's own connection and the open handles, only the program counter of task `t` differs. */
  predicate Ended(s: State, s': State, t: nat, pc: Pc) {
    t < |s.tasks| && s'.tasks == s.tasks[t := s.tasks[t].(pc := pc)] &&
    s'.locks == s.locks && s'.shuttingDown == s.shuttingDown &&
    s'.connections - {s.tasks[t].server} == s.connections - {s.tasks[t].server}
  }

  // ---------------------------------------------------------------------------------------------
  // Phases of a task
  // ---------------------------------------------------------------------------------------------

  lemma OwnStep(s0: State, tr: seq<Label>, more: seq<Label>, s: State, t: nat, ok: bool)
    returns (more': seq<Label>, s': State)
    requires Run(s0, tr + more) == Some(s) && Own(more, t, ok) && t < |s.tasks| && TaskMove(s, t, s.tasks[t], ok).Some?
    ensures Run(s0, tr + more') == Some(s') && Own(more', t, ok) && |more'| == |more| + 1
    ensures s' == Moved(s, t, TaskMove(s, t, s.tasks[t], ok).value)
  {
    var whole;
    whole, s' := GoStep(s0, tr + more, s, t, ok);
    more' := more + [Step(t, ok)];
    assert tr + more' == whole;
  }

  /** What a connect attempt with the new handle `h` leaves. */
  function Connected(s: State, t: nat, h: nat, ok: bool): State
    requires t < |s.tasks|
  {
    var k := s.tasks[t];
    s.(tasks := s.tasks[t := k.(pc := if ok || k.kind.Restart? then Finished else Failed)],
       connections := if ok then s.connections[k.server := h] else s.connections,
       open := if ok || k.kind.Restart? then s.open else s.open - {h},
       locks := if k.kind.Reconnect? then s.locks - {k.server} else s.locks)
  }

  lemma Concludes(s0: State, tr: seq<Label>, more: seq<Label>, s: State, t: nat, h: nat, ok: bool)
    returns (more': seq<Label>, s': State)
    requires Run(s0, tr + more) == Some(s) && Own(more, t, ok) && t < |s.tasks|
    requires s.tasks[t].pc == Connecting(h) && !s.tasks[t].kind.Disconnect?
    ensures Run(s0, tr + more') == Some(s') && Own(more', t, ok) && |more'| <= |more| + 2
    ensures s' == Connected(s, t, h, ok)
  {
    more', s' := OwnStep(s0, tr, more, s, t, ok);
    if !ok && s.tasks[t].kind.Reconnect? {
      more', s' := OwnStep(s0, tr, more', s', t, ok);
      assert s'.tasks == Connected(s, t, h, ok).tasks;
    }
  }

  /** Opening a new handle. */
  lemma Opens(s0: State, tr: seq<Label>, more: seq<Label>, s: State, t: nat, ok: bool)
    returns (more': seq<Label>, s': State)
    requires Run(s0, tr + more) == Some(s) && Own(more, t, ok) && t < |s.tasks| && s.tasks[t].pc == Creating
    ensures Run(s0, tr + more') == Some(s') && Own(more', t, ok) && |more'| == |more| + 1
    ensures s' == s.(tasks := s.tasks[t := s.tasks[t].(pc := Connecting(s.nextHandle))],
                     open := s.open + {s.nextHandle}, nextHandle := s.nextHandle + 1)
  {
    more', s' := OwnStep(s0, tr, more, s, t, ok);
  }

  /** A task that is about to take its server's connection out: with the lock for a reconnect, without for a restart. */
  predicate AboutToPop(s: State, t: nat) {
    t < |s.tasks| &&
    var k := s.tasks[t];
    (k.kind.Reconnect? && k.pc == WantLock && k.server !in s.locks && !s.shuttingDown) ||
    (k.kind.Restart? && k.pc == Accepted && k.server in s.configs)
  }

  /** The state once the connection is taken out. */
  function Popped(s: State, t: nat, pc: Pc): State
    requires t < |s.tasks|
  {
    var k := s.tasks[t];
    s.(tasks := s.tasks[t := k.(pc := pc)], connections := s.connections - {k.server},
       locks := if k.kind.Reconnect? then s.locks[k.server := t] else s.locks)
  }

  lemma PopsOld(s: State, t: nat, ok: bool)
    requires AboutToPop(s, t)
    ensures var k := s.tasks[t];
            var m := TaskMove(s, t, k, ok);
            m.Some? &&
            Moved(s, t, m.value) == Popped(s, t, if k.server in s.connections then Closing(s.connections[k.server]) else Creating)
  {
    var server := s.tasks[t].server;
    if server !in s.connections { assert s.connections - {server} == s.connections; }
  }

  lemma ClosesStale(s: State, t: nat, ok: bool, stale: nat)
    requires t < |s.tasks| && s.tasks[t].pc == Closing(stale)
    requires s.tasks[t].kind.Reconnect? || (s.tasks[t].kind.Restart? && s.tasks[t].server in s.configs)
    ensures var m := TaskMove(s, t, s.tasks[t], ok);
            m.Some? && Moved(s, t, m.value) == s.(tasks := s.tasks[t := s.tasks[t].(pc := Creating)], open := s.open - {stale})
  {
  }

  /** Taking the old connection out and closing it. */
  lemma ClosesOld(s0: State, tr: seq<Label>, more: seq<Label>, s: State, t: nat, ok: bool)
    returns (more': seq<Label>, s': State)
    requires Run(s0, tr + more) == Some(s) && Own(more, t, ok) && AboutToPop(s, t)
    ensures Run(s0, tr + more') == Some(s') && Own(more', t, ok) && |more'| <= |more| + 2
    ensures s' == Popped(s, t, Creating).(open := s.open - Installed(s, s.tasks[t].server))
  {
    var k := s.tasks[t];
    PopsOld(s, t, ok);
    more', s' := OwnStep(s0, tr, more, s, t, ok);
    if k.server in s.connections {
      var stale := s.connections[k.server];
      assert s' == Popped(s, t, Closing(stale));
      ClosesStale(s', t, ok, stale);
      more', s' := OwnStep(s0, tr, more', s', t, ok);
      assert s'.tasks == s.tasks[t := k.(pc := Creating)];
    }
  }

  // ---------------------------------------------------------------------------------------------
  // Whole tasks
  // ---------------------------------------------------------------------------------------------

  /** The new connection of `server`, or none, took the place of the old one, which is closed. */
  predicate Replaced(s: State, s': State, server: string, ok: bool) {
    s'.configs == s.configs && (server in s'.connections <==> ok) &&
    (ok ==> s'.connections[server] !in s.open) && s'.open == (s.open - Installed(s, server)) + Installed(s', server)
  }

  lemma FreshHandle(s0: State, tr: seq<Label>)
    requires Initial(s0) && Run(s0, tr).Some?
    ensures Run(s0, tr).value.nextHandle !in Run(s0, tr).value.open
  {
    HandlesLostExactly(s0, tr);
  }

  /** A reconnect that is let to run reconnects: the old connection is closed, and the server has a new one, or
      none and nothing left open when the connection cannot be made. The lock is free again. */
  lemma ReconnectReconnects(s0: State, tr: seq<Label>, t: nat, server: string, ok: bool)
    returns (more: seq<Label>, s': State)
    requires Initial(s0) && Run(s0, tr).Some? && t < |Run(s0, tr).value.tasks|
    requires Run(s0, tr).value.tasks[t] == Task(Reconnect, server, Begin)
    requires var s := Run(s0, tr).value; server in s.configs && !s.shuttingDown && server !in s.locks
    ensures Run(s0, tr + more) == Some(s') && Own(more, t, ok) && |more| <= 6
    ensures var s := Run(s0, tr).value;
            Ended(s, s', t, if ok then Finished else Failed) && Replaced(s, s', server, ok)
  {
    var s := Run(s0, tr).value;
    FreshHandle(s0, tr);
    assert tr + [] == tr;
    var s1, s2, s3;
    more, s1 := OwnStep(s0, tr, [], s, t, ok);
    more, s2 := ClosesOld(s0, tr, more, s1, t, ok);
    more, s3 := Opens(s0, tr, more, s2, t, ok);
    more, s' := Concludes(s0, tr, more, s3, t, s.nextHandle, ok);
    assert s'.tasks == s.tasks[t := s'.tasks[t]];
    assert s.locks[server := t] - {server} == s.locks;
    assert s'.connections - {server} == s.connections - {server};
  }

  /** A restart does the same without the lock, except that the handle of a failed attempt stays open. */
  lemma RestartRestarts(s0: State, tr: seq<Label>, t: nat, server: string, ok: bool)
    returns (more: seq<Label>, s': State)
    requires Initial(s0) && Run(s0, tr).Some? && t < |Run(s0, tr).value.tasks|
    requires Run(s0, tr).value.tasks[t] == Task(Restart, server, Begin) && server in Run(s0, tr).value.configs
    ensures Run(s0, tr + more) == Some(s') && Own(more, t, ok) && |more| <= 6
    ensures var s := Run(s0, tr).value;
            Ended(s, s', t, Finished) && s'.configs == s.configs && (server in s'.connections <==> ok) &&
            exists h: nat :: h !in s.open && (ok ==> s'.connections[server] == h) &&
                             s'.open == (s.open - Installed(s, server)) + {h}
  {
    var s := Run(s0, tr).value;
    FreshHandle(s0, tr);
    assert tr + [] == tr;
    var s1, s2, s3;
    more, s1 := OwnStep(s0, tr, [], s, t, ok);
    more, s2 := ClosesOld(s0, tr, more, s1, t, ok);
    more, s3 := Opens(s0, tr, more, s2, t, ok);
    more, s' := Concludes(s0, tr, more, s3, t, s.nextHandle, ok);
    assert s'.tasks == s.tasks[t := s'.tasks[t]];
    assert s'.connections - {server} == s.connections - {server};
  }

  lemma DisconnectPops(s: State, t: nat, ok: bool)
    requires t < |s.tasks| && s.tasks[t].kind.Disconnect? && s.tasks[t].pc == Begin
    ensures var k := s.tasks[t];
            var m := TaskMove(s, t, k, ok);
            m.Some? && m.value.connections == s.connections - {k.server} && m.value.configs == s.configs - {k.server} &&
            m.value.locks == s.locks && m.value.open == s.open && m.value.nextHandle == s.nextHandle &&
            m.value.pc == if k.server in s.connections then Closing(s.connections[k.server]) else Finished
  {
    var server := s.tasks[t].server;
    if server !in s.connections { assert s.connections - {server} == s.connections; }
  }

  lemma DisconnectCloses(s: State, t: nat, ok: bool, stale: nat)
    requires t < |s.tasks| && s.tasks[t].kind.Disconnect? && s.tasks[t].pc == Closing(stale)
    ensures TaskMove(s, t, s.tasks[t], ok) == Some(Stay(s, Finished).(open := s.open - {stale}))
  {
  }

  /** A disconnect needs no lock: the server is gone and its handle closed. */
  lemma DisconnectDisconnects(s0: State, tr: seq<Label>, t: nat, server: string, ok: bool)
    returns (more: seq<Label>, s': State)
    requires Run(s0, tr).Some? && t < |Run(s0, tr).value.tasks|
    requires Run(s0, tr).value.tasks[t] == Task(Disconnect, server, Begin)
    ensures Run(s0, tr + more) == Some(s') && Own(more, t, ok) && |more| <= 2
    ensures var s := Run(s0, tr).value;
            Ended(s, s', t, Finished) && Gone(s', server) && s'.configs == s.configs - {server} &&
            s'.open == s.open - Installed(s, server)
  {
    var s := Run(s0, tr).value;
    assert tr + [] == tr;
    DisconnectPops(s, t, ok);
    more, s' := OwnStep(s0, tr, [], s, t, ok);
    if server in s.connections {
      DisconnectCloses(s', t, ok, s.connections[server]);
      more, s' := OwnStep(s0, tr, more, s', t, ok);
    }
    RemovedTwice(s.connections, server);
  }

  lemma RemovedTwice(m: map<string, nat>, k: string)
    ensures m - {k} - {k} == m - {k}
  {
  }

  /** A task that finds nothing to do ends at once and changes nothing: a reconnect while shutting down or without
      a configuration, which fails, and a restart without one. */
  lemma NothingToDo(s: State, t: nat, ok: bool)
    requires t < |s.tasks| && s.tasks[t].pc == Begin && !s.tasks[t].kind.Disconnect?
    ensures var k := s.tasks[t];
            Next(s, Step(t, ok)).Some? &&
            var s' := Next(s, Step(t, ok)).value;
            (Done(s'.tasks[t].pc) <==> k.server !in s.configs || (k.kind.Reconnect? && s.shuttingDown)) &&
            (s'.tasks[t].pc == Failed <==> k.kind.Reconnect? && !s.shuttingDown && k.server !in s.configs) &&
            s' == s.(tasks := s'.tasks)
  {
  }

  /** A reconnect waits for the lock and for nothing else; if the manager shuts down meanwhile it gives up without
      touching the connection. */
  lemma WaitsForLockOnly(s: State, t: nat, ok: bool)
    requires t < |s.tasks| && s.tasks[t].pc == WantLock
    ensures Next(s, Step(t, ok)).Some? <==> s.tasks[t].server !in s.locks
    ensures s.tasks[t].server !in s.locks && s.shuttingDown ==>
              Next(s, Step(t, ok)) == Some(s.(tasks := s.tasks[t := s.tasks[t].(pc := Finished)]))
  {
  }
}
