/** Lazy tools (cogtrix_core/registry.py): any number of threads resolve one proxy by double-checked
    locking, while others register tools in the same registry. */
module LazyProxy {
  import opened Options

  /** A registry entry: the stub stored at start-up, or a tool object made by `register_tool`. */
  datatype Tool = Stub(name: string) | Real(id: nat)

  datatype Pc =
    | Begin | WantLock
    | Locked              // has the lock, about to check again
    | Loading             // importing the module
    | LookingUp           // its tools are registered
    | Storing(tool: Tool)
    | Unlocked            // stored and released, about to read the field
    | Done(tool: Tool) | Raised

  datatype State = State(
    name: string, resolved: Option<Tool>, lock: Option<nat>, registry: map<string, Tool>, nextId: nat,
    threads: seq<Pc>)

  datatype Label =
    | Call
    | Check(t: nat) | Acquire(t: nat) | Recheck(t: nat)
    | ImportFails(t: nat) | ImportWorks(t: nat, names: seq<string>)
    | Lookup(t: nat) | Store(t: nat) | Read(t: nat)
    | Register(names: seq<string>)   // another proxy or plugin

  /** `register_tool` for each name in turn: always a new tool object. */
  function Registered(registry: map<string, Tool>, names: seq<string>, nextId: nat): map<string, Tool>
    decreases names
  {
    if names == [] then registry
    else Registered(registry[names[0] := Real(nextId)], names[1..], nextId + 1)
  }

  function At(s: State, t: nat, pc: Pc): State
    requires t < |s.threads|
  {
    s.(threads := s.threads[t := pc])
  }

  function Leave(s: State, t: nat, pc: Pc): State
    requires t < |s.threads|
  {
    At(s, t, pc).(lock := None)
  }

  predicate InPc(s: State, t: nat, pc: Pc) { t < |s.threads| && s.threads[t] == pc }

  function Next(s: State, l: Label): Option<State> {
    match l
    case Call => Some(s.(threads := s.threads + [Begin]))
    case Check(t) =>
      if !InPc(s, t, Begin) then None
      else Some(At(s, t, if s.resolved.Some? then Done(s.resolved.value) else WantLock))
    case Acquire(t) =>
      if !InPc(s, t, WantLock) || s.lock.Some? then None else Some(At(s, t, Locked).(lock := Some(t)))
    case Recheck(t) =>
      if !InPc(s, t, Locked) then None
      else if s.resolved.Some? then Some(Leave(s, t, Done(s.resolved.value)))
      else Some(At(s, t, Loading))
    case ImportFails(t) => if !InPc(s, t, Loading) then None else Some(Leave(s, t, Raised))
    case ImportWorks(t, names) =>
      if !InPc(s, t, Loading) then None
      else Some(At(s, t, LookingUp).(registry := Registered(s.registry, names, s.nextId),
                                     nextId := s.nextId + |names|))
    case Lookup(t) =>
      if !InPc(s, t, LookingUp) then None
      else if s.name in s.registry then Some(At(s, t, Storing(s.registry[s.name])))
      else Some(Leave(s, t, Raised))
    case Store(t) =>
      if t < |s.threads| && s.threads[t].Storing?
      then Some(Leave(s, t, Unlocked).(resolved := Some(s.threads[t].tool))) else None
    case Read(t) =>
      if InPc(s, t, Unlocked) && s.resolved.Some? then Some(At(s, t, Done(s.resolved.value))) else None
    case Register(names) =>
      Some(s.(registry := Registered(s.registry, names, s.nextId), nextId := s.nextId + |names|))
  }

  function Run(s0: State, tr: seq<Label>): Option<State> {
    if tr == [] then Some(s0)
    else
      var before := Run(s0, tr[..|tr| - 1]);
      if before.None? then None else Next(before.value, tr[|tr| - 1])
  }

  predicate Initial(s: State) { s.resolved == None && s.lock == None && s.threads == [] }

  /** How many imports of this proxy worked in a run. */
  function Imports(tr: seq<Label>): nat {
    if tr == [] then 0 else Imports(tr[..|tr| - 1]) + if tr[|tr| - 1].ImportWorks? then 1 else 0
  }

  /** Whether anybody registered `name` in a run. */
  ghost predicate EverRegistered(tr: seq<Label>, name: string) {
    exists l :: l in tr && ((l.ImportWorks? && name in l.names) || (l.Register? && name in l.names))
  }

  // ---------------------------------------------------------------------------------------------
  // The invariant
  // ---------------------------------------------------------------------------------------------

  predicate Inside(pc: Pc) { pc.Locked? || pc.Loading? || pc.LookingUp? || pc.Storing? }

  predicate Loaded(pc: Pc) { pc.LookingUp? || pc.Storing? }

  predicate ThreadOk(s: State, t: nat)
    requires t < |s.threads|
  {
    var pc := s.threads[t];
    (Inside(pc) <==> s.lock == Some(t)) &&
    (pc.Loading? || Loaded(pc) ==> s.resolved == None) &&
    (pc.Unlocked? ==> s.resolved.Some?) &&
    (pc.Done? ==> s.resolved == Some(pc.tool))
  }

  /** The lock holder has imported the module but not yet stored the tool. */
  predicate InFlight(s: State) { s.lock.Some? && s.lock.value < |s.threads| && Loaded(s.threads[s.lock.value]) }

  ghost predicate Inv(s: State) {
    (s.lock.Some? ==> s.lock.value < |s.threads|) && forall t: nat :: t < |s.threads| ==> ThreadOk(s, t)
  }

  lemma {:induction false} RegisteredNames(registry: map<string, Tool>, names: seq<string>, nextId: nat, name: string)
    ensures var r := Registered(registry, names, nextId);
            (name in r <==> name in registry || name in names) &&
            (name in names ==> r[name].Real?) && (name !in names && name in registry ==> r[name] == registry[name])
    decreases names
  {
    if names != [] {
      RegisteredNames(registry[names[0] := Real(nextId)], names[1..], nextId + 1, name);
    }
  }

  lemma StepKeepsInv(s: State, l: Label, s': State)
    requires Inv(s) && Next(s, l) == Some(s')
    ensures Inv(s') && s'.name == s.name
    ensures s.resolved.Some? ==> s'.resolved == s.resolved
    ensures s.name in s.registry ==> s.name in s'.registry
  {
    if l.ImportWorks? || l.Register? {
      RegisteredNames(s.registry, l.names, s.nextId, s.name);
    }
    if !l.Call? && !l.Register? {
      assert ThreadOk(s, l.t);
    }
    forall t: nat | t < |s'.threads| ensures ThreadOk(s', t) {
      if t < |s.threads| { assert ThreadOk(s, t); }
    }
  }

  lemma {:induction false} RunKeepsInv(s0: State, tr: seq<Label>)
    requires Inv(s0) && Run(s0, tr).Some?
    ensures var s := Run(s0, tr).value;
            Inv(s) && s.name == s0.name && (s0.resolved.Some? ==> s.resolved == s0.resolved) &&
            (s0.name in s0.registry ==> s0.name in s.registry)
  {
    if tr != [] {
      RunKeepsInv(s0, tr[..|tr| - 1]);
      StepKeepsInv(Run(s0, tr[..|tr| - 1]).value, tr[|tr| - 1], Run(s0, tr).value);
    }
  }

  lemma {:induction false} RunJoins(s0: State, a: seq<Label>, b: seq<Label>)
    requires Run(s0, a).Some?
    ensures Run(s0, a + b) == Run(Run(s0, a).value, b)
  {
    if b == [] {
      assert a + b == a;
    } else {
      RunJoins(s0, a, b[..|b| - 1]);
      assert (a + b)[..|a + b| - 1] == a + b[..|b| - 1];
    }
  }

  // ---------------------------------------------------------------------------------------------
  // What every run guarantees
  // ---------------------------------------------------------------------------------------------

  /** The field is written once: whatever happens later, it keeps its value. */
  lemma ResolvedIsWriteOnce(s0: State, tr: seq<Label>, more: seq<Label>)
    requires Initial(s0) && Run(s0, tr + more).Some? && Run(s0, tr).Some? && Run(s0, tr).value.resolved.Some?
    ensures Run(s0, tr + more).value.resolved == Run(s0, tr).value.resolved
  {
    RunKeepsInv(s0, tr);
    RunJoins(s0, tr, more);
    RunKeepsInv(Run(s0, tr).value, more);
  }

  /** Every caller that returns, returns the same tool. */
  lemma CallersAgree(s0: State, tr: seq<Label>, t: nat, u: nat)
    requires Initial(s0) && Run(s0, tr).Some?
    requires var ts := Run(s0, tr).value.threads;
             t < |ts| && u < |ts| && ts[t].Done? && ts[u].Done?
    ensures var s := Run(s0, tr).value;
            s.threads[t] == s.threads[u] && s.resolved == Some(s.threads[t].tool)
  {
    RunKeepsInv(s0, tr);
    assert ThreadOk(Run(s0, tr).value, t) && ThreadOk(Run(s0, tr).value, u);
  }

  /** The module is imported successfully at most once by this proxy, in every interleaving. */
  lemma {:induction false} ImportedOnce(s0: State, tr: seq<Label>)
    requires Initial(s0) && s0.name in s0.registry && Run(s0, tr).Some?
    ensures var s := Run(s0, tr).value;
            Imports(tr) == (if s.resolved.Some? then 1 else 0) + (if InFlight(s) then 1 else 0)
    ensures Imports(tr) <= 1
  {
    if tr != [] {
      var pre, l := tr[..|tr| - 1], tr[|tr| - 1];
      ImportedOnce(s0, pre);
      RunKeepsInv(s0, pre);
      ImportStep(Run(s0, pre).value, l, Run(s0, tr).value);
    }
  }

  /** How the flag and the field move together in one step. */
  lemma ImportStep(s: State, l: Label, s': State)
    requires Inv(s) && Next(s, l) == Some(s') && s.name in s.registry
    ensures (if s'.resolved.Some? then 1 else 0) + (if InFlight(s') then 1 else 0) ==
            (if s.resolved.Some? then 1 else 0) + (if InFlight(s) then 1 else 0) + (if l.ImportWorks? then 1 else 0)
    ensures s'.resolved.Some? ==> !InFlight(s')
  {
    StepKeepsInv(s, l, s');
    if s'.lock.Some? { assert ThreadOk(s', s'.lock.value); }
    if s.lock.Some? { assert ThreadOk(s, s.lock.value); }
    match l
    case ImportWorks(t, _) => assert ThreadOk(s, t) && ThreadOk(s', t);
    case Lookup(t) => assert ThreadOk(s, t) && ThreadOk(s', t);
    case Store(t) => assert ThreadOk(s, t) && ThreadOk(s', t);
    case ImportFails(t) => assert ThreadOk(s, t);
    case Recheck(t) => assert ThreadOk(s, t);
    case _ =>
  }

  /** A failed import leaves the proxy unresolved and unlocked, and the next caller imports again. */
  lemma FailureIsRetryable(s0: State, tr: seq<Label>, t: nat)
    requires Initial(s0) && Run(s0, tr).Some? && InPc(Run(s0, tr).value, t, Loading)
    ensures var failed := Next(Run(s0, tr).value, ImportFails(t)).value;
            var n := |failed.threads|;
            var retry := Run(failed, [Call, Check(n), Acquire(n), Recheck(n)]);
            failed.resolved == None && failed.lock == None && failed.threads[t] == Raised &&
            retry.Some? && InPc(retry.value, n, Loading)
  {
    RunKeepsInv(s0, tr);
    var s := Run(s0, tr).value;
    assert ThreadOk(s, t);
    var failed := Next(s, ImportFails(t)).value;
    var n := |failed.threads|;
    var s1 := Next(failed, Call).value;
    var s2 := Next(s1, Check(n)).value;
    var s3 := Next(s2, Acquire(n)).value;
    assert [Call][..0] == [];
    assert Run(failed, [Call]) == Some(s1);
    assert [Call, Check(n)][..1] == [Call];
    assert Run(failed, [Call, Check(n)]) == Some(s2);
    assert [Call, Check(n), Acquire(n)][..2] == [Call, Check(n)];
    assert Run(failed, [Call, Check(n), Acquire(n)]) == Some(s3);
    assert [Call, Check(n), Acquire(n), Recheck(n)][..3] == [Call, Check(n), Acquire(n)];
  }

  // ---------------------------------------------------------------------------------------------
  // The stub in the registry
  // ---------------------------------------------------------------------------------------------

  /** At start-up the registry maps the tool's name to its own stub. */
  predicate StubStored(s: State) { s.name in s.registry && s.registry[s.name] == Stub(s.name) }

  predicate ToolIs(tool: Tool, loaded: bool, name: string) { if loaded then tool.Real? else tool == Stub(name) }

  lemma EverGrows(tr: seq<Label>, l: Label, name: string)
    ensures EverRegistered(tr + [l], name) <==>
            EverRegistered(tr, name) || ((l.ImportWorks? || l.Register?) && name in l.names)
  {
    if EverRegistered(tr, name) {
      var x :| x in tr && ((x.ImportWorks? && name in x.names) || (x.Register? && name in x.names));
      assert x in tr + [l];
    }
    assert l in tr + [l];
  }

  /** The registry entry is the stub until somebody registers the name, and a real tool ever after. */
  lemma {:induction false} EntryFollowsRun(s0: State, tr: seq<Label>)
    requires Initial(s0) && StubStored(s0) && Run(s0, tr).Some?
    ensures var s := Run(s0, tr).value;
            s.name == s0.name && s.name in s.registry &&
            ToolIs(s.registry[s.name], EverRegistered(tr, s0.name), s0.name)
  {
    if tr != [] {
      var pre, l := tr[..|tr| - 1], tr[|tr| - 1];
      EntryFollowsRun(s0, pre);
      RunKeepsInv(s0, pre);
      EverGrows(pre, l, s0.name);
      assert tr == pre + [l];
      if l.ImportWorks? || l.Register? {
        var s := Run(s0, pre).value;
        RegisteredNames(s.registry, l.names, s.nextId, s.name);
      }
    }
  }

  /** The look-up after an import never fails, since the stub is there: so when the module did not register
      the name, and nobody else has, the proxy takes its own stub for the loaded tool. */
  lemma LookupFindsStubIff(s0: State, tr: seq<Label>, t: nat)
    requires Initial(s0) && StubStored(s0) && Run(s0, tr).Some? && InPc(Run(s0, tr).value, t, LookingUp)
    ensures var s := Next(Run(s0, tr).value, Lookup(t)).value;
            s.threads[t].Storing? && (s.threads[t].tool == Stub(s0.name) <==> !EverRegistered(tr, s0.name))
  {
    EntryFollowsRun(s0, tr);
  }

  ghost predicate ImportsRegister(tr: seq<Label>, name: string) {
    forall l :: l in tr && l.ImportWorks? ==> name in l.names
  }

  /** Nobody has got, or is about to store, anything but a real tool. */
  ghost predicate OnlyReal(tr: seq<Label>, s: State) {
    (s.resolved.Some? ==> s.resolved.value.Real?) &&
    forall t: nat :: t < |s.threads| ==>
      (Loaded(s.threads[t]) ==> EverRegistered(tr, s.name)) &&
      (s.threads[t].Storing? || s.threads[t].Done? ==> s.threads[t].tool.Real?)
  }

  lemma OnlyRealStep(tr: seq<Label>, s: State, l: Label, s': State)
    requires OnlyReal(tr, s) && Next(s, l) == Some(s') && (l.ImportWorks? ==> s.name in l.names)
    requires s.name in s.registry && ToolIs(s.registry[s.name], EverRegistered(tr, s.name), s.name)
    ensures OnlyReal(tr + [l], s')
  {
    EverGrows(tr, l, s.name);
    forall t: nat | t < |s'.threads|
      ensures Loaded(s'.threads[t]) ==> EverRegistered(tr + [l], s'.name)
      ensures s'.threads[t].Storing? || s'.threads[t].Done? ==> s'.threads[t].tool.Real?
    {
    }
  }

  /** If every working import registers the tool's name, every caller that returns has got a real tool, never
      the stub. */
  lemma {:induction false} ResolvesToRealTool(s0: State, tr: seq<Label>)
    requires Initial(s0) && StubStored(s0) && Run(s0, tr).Some? && ImportsRegister(tr, s0.name)
    ensures OnlyReal(tr, Run(s0, tr).value)
  {
    if tr != [] {
      var pre, l := tr[..|tr| - 1], tr[|tr| - 1];
      assert l in tr && forall x :: x in pre ==> x in tr;
      ResolvesToRealTool(s0, pre);
      EntryFollowsRun(s0, pre);
      assert tr == pre + [l];
      OnlyRealStep(pre, Run(s0, pre).value, l, Run(s0, tr).value);
    }
  }

  /** A module that imports but does not register the name leaves every caller with the stub itself. */
  lemma UnregisteredNameResolvesToItself(s0: State)
    requires Initial(s0) && StubStored(s0)
    ensures exists tr: seq<Label> :: Run(s0, tr).Some? && InPc(Run(s0, tr).value, 0, Done(Stub(s0.name)))
  {
    var tr, s := StartLoading(s0);
    tr, s := FindsStub(s0, tr, s);
    tr, s := Go(s0, tr, s, Store(0));
    tr, s := Go(s0, tr, s, Read(0));
  }

  lemma FindsStub(s0: State, tr: seq<Label>, s: State) returns (tr': seq<Label>, s': State)
    requires Run(s0, tr) == Some(s) && InPc(s, 0, Loading) && StubStored(s)
    ensures Run(s0, tr') == Some(s') && InPc(s', 0, Storing(Stub(s.name)))
  {
    var names: seq<string> := [];
    tr', s' := ImportsNothing(s0, tr, s, names);
    tr', s' := LooksUp(s0, tr', s');
  }

  lemma ImportsNothing(s0: State, tr: seq<Label>, s: State, names: seq<string>) returns (tr': seq<Label>, s': State)
    requires Run(s0, tr) == Some(s) && InPc(s, 0, Loading) && |names| == 0
    ensures Run(s0, tr') == Some(s') && InPc(s', 0, LookingUp) && s'.registry == s.registry && s'.name == s.name
  {
    tr', s' := Go(s0, tr, s, ImportWorks(0, names));
  }

  lemma LooksUp(s0: State, tr: seq<Label>, s: State) returns (tr': seq<Label>, s': State)
    requires Run(s0, tr) == Some(s) && InPc(s, 0, LookingUp) && StubStored(s)
    ensures Run(s0, tr') == Some(s') && InPc(s', 0, Storing(Stub(s.name)))
  {
    tr', s' := Go(s0, tr, s, Lookup(0));
  }

  lemma StartLoading(s0: State) returns (tr: seq<Label>, s: State)
    requires Initial(s0)
    ensures Run(s0, tr) == Some(s) && s == s0.(threads := [Loading], lock := Some(0))
  {
    tr, s := Go(s0, [], s0, Call);
    tr, s := Go(s0, tr, s, Check(0));
    tr, s := Go(s0, tr, s, Acquire(0));
    tr, s := Go(s0, tr, s, Recheck(0));
  }

  lemma Go(s0: State, tr: seq<Label>, s: State, l: Label) returns (tr': seq<Label>, s': State)
    requires Run(s0, tr) == Some(s) && Next(s, l).Some?
    ensures tr' == tr + [l] && Some(s') == Next(s, l) && Run(s0, tr') == Some(s')
  {
    tr', s' := tr + [l], Next(s, l).value;
    assert tr'[..|tr'| - 1] == tr;
  }

  /** Once the tool is stored every caller returns it: one that has yet to check at once, and one that waited for the
      lock as soon as it has checked again, giving the lock back. */
  lemma LaterCallersReturn(s0: State, tr: seq<Label>, t: nat, tool: Tool)
    requires Run(s0, tr).Some? && Run(s0, tr).value.resolved == Some(tool)
    ensures var s := Run(s0, tr).value;
            (InPc(s, t, Begin) ==> Run(s0, tr + [Check(t)]) == Some(s.(threads := s.threads[t := Done(tool)]))) &&
            (InPc(s, t, Locked) ==>
               Run(s0, tr + [Recheck(t)]) == Some(s.(threads := s.threads[t := Done(tool)], lock := None))) &&
            (InPc(s, t, Unlocked) ==> Run(s0, tr + [Read(t)]) == Some(s.(threads := s.threads[t := Done(tool)])))
  {
    assert (tr + [Check(t)])[..|tr|] == tr && (tr + [Recheck(t)])[..|tr|] == tr && (tr + [Read(t)])[..|tr|] == tr;
  }

  // ---------------------------------------------------------------------------------------------
  // Which tool it is
  // ---------------------------------------------------------------------------------------------

  /** The names a label registers, in turn. */
  function Names(l: Label): seq<string> {
    match l
    case ImportWorks(_, names) => names
    case Register(names) => names
    case _ => []
  }

  /** How many tools a run has registered. */
  function Made(tr: seq<Label>): nat { if tr == [] then 0 else Made(tr[..|tr| - 1]) + |Names(tr[|tr| - 1])| }

  /** The last place of a name in a list that has it. */
  function LastIndex(names: seq<string>, name: string): (i: nat)
    requires name in names
    ensures i < |names| && names[i] == name && forall j :: i < j < |names| ==> names[j] != name
  {
    if names[|names| - 1] == name then |names| - 1 else LastIndex(names[..|names| - 1], name)
  }

  /** The tool last registered under `name` in a run: tools are numbered in the order they are registered. */
  function LastRegistered(s0: State, tr: seq<Label>, name: string): Tool
    requires name in s0.registry
  {
    if tr == [] then s0.registry[name]
    else
      var pre, names := tr[..|tr| - 1], Names(tr[|tr| - 1]);
      if name in names then Real(s0.nextId + Made(pre) + LastIndex(names, name)) else LastRegistered(s0, pre, name)
  }

  /** Some look-up of this proxy found `tool`, which was the last registered under its name by then. */
  ghost predicate FoundLast(s0: State, tr: seq<Label>, tool: Tool)
    requires s0.name in s0.registry
  {
    exists n: nat :: n < |tr| && tr[n].Lookup? && tool == LastRegistered(s0, tr[..n], s0.name)
  }

  lemma {:induction false} RegisteredLast(registry: map<string, Tool>, names: seq<string>, nextId: nat, name: string)
    ensures var r := Registered(registry, names, nextId);
            if name in names then name in r && r[name] == Real(nextId + LastIndex(names, name))
            else (name in r <==> name in registry) && (name in r ==> r[name] == registry[name])
    decreases names
  {
    if names != [] {
      var rest := names[1..];
      RegisteredLast(registry[names[0] := Real(nextId)], rest, nextId + 1, name);
      if name in rest {
        var i := LastIndex(rest, name);
        assert names[i + 1] == name && LastIndex(names, name) == i + 1;
      } else if name == names[0] {
        assert forall j :: 0 < j < |names| ==> names[j] == rest[j - 1];
        assert LastIndex(names, name) == 0;
      }
    }
  }

  /** The registry keeps, under every name it had, the tool last registered. */
  lemma {:induction false} RegistryIsTold(s0: State, tr: seq<Label>, name: string)
    requires name in s0.registry && Run(s0, tr).Some?
    ensures var s := Run(s0, tr).value;
            s.nextId == s0.nextId + Made(tr) && name in s.registry && s.registry[name] == LastRegistered(s0, tr, name)
  {
    if tr != [] {
      var pre, l := tr[..|tr| - 1], tr[|tr| - 1];
      RegistryIsTold(s0, pre, name);
      var s := Run(s0, pre).value;
      RegisteredLast(s.registry, Names(l), s.nextId, name);
    }
  }

  lemma FoundGrows(s0: State, tr: seq<Label>, l: Label, tool: Tool)
    requires s0.name in s0.registry
    requires FoundLast(s0, tr, tool) || (l.Lookup? && tool == LastRegistered(s0, tr, s0.name))
    ensures FoundLast(s0, tr + [l], tool)
  {
    var more := tr + [l];
    if FoundLast(s0, tr, tool) {
      var n: nat :| n < |tr| && tr[n].Lookup? && tool == LastRegistered(s0, tr[..n], s0.name);
      assert more[n] == tr[n] && more[..n] == tr[..n];
    } else {
      assert more[|tr|] == l && more[..|tr|] == tr;
    }
  }

  ghost predicate FoundByLookup(s0: State, tr: seq<Label>, s: State)
    requires s0.name in s0.registry
  {
    (s.resolved.Some? ==> FoundLast(s0, tr, s.resolved.value)) &&
    forall t: nat :: t < |s.threads| && s.threads[t].Storing? ==> FoundLast(s0, tr, s.threads[t].tool)
  }

  /** The tool every caller gets is the one last registered under the proxy's own name before its look-up, by whomever
      and however often. */
  lemma {:induction false} ResolvesToLastRegistered(s0: State, tr: seq<Label>)
    requires Initial(s0) && s0.name in s0.registry && Run(s0, tr).Some?
    ensures var s := Run(s0, tr).value;
            FoundByLookup(s0, tr, s) &&
            forall t: nat :: t < |s.threads| && s.threads[t].Done? ==> FoundLast(s0, tr, s.threads[t].tool)
  {
    RunKeepsInv(s0, tr);
    var s' := Run(s0, tr).value;
    if tr != [] {
      var pre, l := tr[..|tr| - 1], tr[|tr| - 1];
      ResolvesToLastRegistered(s0, pre);
      RunKeepsInv(s0, pre);
      RegistryIsTold(s0, pre, s0.name);
      assert tr == pre + [l];
      LookupStep(s0, pre, Run(s0, pre).value, l, s');
    }
    forall t: nat | t < |s'.threads| && s'.threads[t].Done? ensures FoundLast(s0, tr, s'.threads[t].tool) {
      assert ThreadOk(s', t);
    }
  }

  lemma LookupStep(s0: State, tr: seq<Label>, s: State, l: Label, s': State)
    requires s0.name in s0.registry && FoundByLookup(s0, tr, s) && Next(s, l) == Some(s') && s.name == s0.name
    requires s.name in s.registry && s.registry[s.name] == LastRegistered(s0, tr, s0.name)
    ensures FoundByLookup(s0, tr + [l], s')
  {
    if s'.resolved.Some? { FoundGrows(s0, tr, l, s'.resolved.value); }
    forall t: nat | t < |s'.threads| && s'.threads[t].Storing? ensures FoundLast(s0, tr + [l], s'.threads[t].tool) {
      assert (t < |s.threads| && s.threads[t] == s'.threads[t]) || l == Lookup(t);
      FoundGrows(s0, tr, l, s'.threads[t].tool);
    }
  }
}
