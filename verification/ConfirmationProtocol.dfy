/** Any number of tool calls, each let through by the graph's invoker
    (cogtrix_core/orchestration/deduped_tool_invoker.py) to a safety wrapper (cogtrix_core/agent/safety.py), sharing
    one confirmation UI with a client that resolves and cancels prompts, as a labelled transition system. A label
    names who moves and carries everything the move does not determine. */
module ConfirmationProtocol {
  import opened Options
  import opened ConfirmationUi

  /** One call of a wrapped tool: its name, its entry in `tool_trust`, whether it has a UI, and whether the graph
      runs it on the session state that the wrapper holds, as it does everywhere but in queued tasks. */
  datatype Request = Request(tool: string, trust: string, hasUi: bool, shared: bool)

  datatype Pc =
    | Start
    | Invoked                        // let through by the invoker
    | Gated                          // needs confirmation, `no_confirm` not yet read
    | WantLock
    | Holding                        // inside `_confirmation_lock`, before the denial check
    | Checked                        // not denied
    | Asking                         // about to render the prompt
    | Shown                          // prompt rendered, event not yet fetched
    | Waiting(event: nat)            // polling
    | Reading                        // about to read the pending action
    | Deciding(choice: Choice)
    | Running
    | Ran | Denied | Aborted

  datatype Call = Call(req: Request, pc: Pc, promptId: string)

  datatype State = State(
    slot: Slot, usedIds: set<string>, lock: Option<nat>, calls: seq<Call>,
    gated: set<string>, noConfirm: bool, denials: set<string>, denyAll: bool, approvals: set<string>)

  datatype Label =
    | Spawn(req: Request)
    | Invoke(c: nat, refused: bool) | Enter(c: nat) | ReadNoConfirm(c: nat) | Acquire(c: nat) | CheckDenied(c: nat) | CheckApproved(c: nat)
    | Render(c: nat, id: string) | FetchEvent(c: nat) | Wake(c: nat) | TimeOut(c: nat)
    | ReadAction(c: nat) | Decide(c: nat) | Execute(c: nat)
    | Resolve(id: string, action: string) | Cancel
    | DenyTool(t: string) | AllowTool(t: string) | Approve(t: string) | Revoke(t: string)
    | NewPrompt | NewSession
    | ToggleApprove(listed: set<string>)     // `/approve`, with the tools the registry lists
    | Register(t: string, confirm: bool)     // a tool's metadata is written again

  predicate Initial(s: State) {
    s.slot == EMPTY_SLOT && s.usedIds == {} && s.lock == None && s.calls == []
  }

  predicate IsDenied(s: State, t: string) { s.denyAll || t in s.denials }

  /** Whether a call needs confirmation, unless `/approve` is on. */
  predicate NeedsConfirmation(gated: set<string>, req: Request) { req.tool in gated && req.trust != "always" }

  /** The call a label moves, if it is a move of an existing call. */
  function Mover(l: Label): Option<nat> {
    match l
    case Invoke(c, _) => Some(c)
    case Enter(c) => Some(c)
    case ReadNoConfirm(c) => Some(c)
    case Acquire(c) => Some(c)
    case CheckDenied(c) => Some(c)
    case CheckApproved(c) => Some(c)
    case Render(c, _) => Some(c)
    case FetchEvent(c) => Some(c)
    case Wake(c) => Some(c)
    case TimeOut(c) => Some(c)
    case ReadAction(c) => Some(c)
    case Decide(c) => Some(c)
    case Execute(c) => Some(c)
    case _ => None
  }

  /** What a move of a call leaves behind: its own program counter and prompt, and the shared state. */
  datatype Move = Move(pc: Pc, promptId: string, lock: Option<nat>, slot: Slot, usedIds: set<string>,
                       denials: set<string>, denyAll: bool, approvals: set<string>)

  function Stay(s: State, k: Call, pc: Pc): Move {
    Move(pc, k.promptId, s.lock, s.slot, s.usedIds, s.denials, s.denyAll, s.approvals)
  }

  /** Leaving the `with _confirmation_lock` block. */
  function Leave(s: State, k: Call, pc: Pc): Move { Stay(s, k, pc).(lock := None) }

  /** What the wrapper does with the user's choice. */
  function Decided(s: State, k: Call, choice: Choice): Move {
    match Meaning(choice)
    case ApprovedSession => Leave(s, k, Running).(approvals := s.approvals + {k.req.tool})
    case ApprovedOnce => Leave(s, k, Running)
    case DeniedAll => Leave(s, k, Denied).(denyAll := true)
    case DeniedDisable => Leave(s, k, Denied).(denials := s.denials + {k.req.tool})
    case Cancelled => Leave(s, k, Aborted)
    case DeniedOnce => Leave(s, k, Denied)
  }

  /** One step of call `c`. `locked` is true for the code as it is; false removes the mutual exclusion that
      `_confirmation_lock` gives, to show what rests on it. */
  function CallMove(locked: bool, s: State, l: Label, c: nat, k: Call): Option<Move> {
    match l
    case Invoke(_, refused) =>
      if k.pc != Start || (k.req.shared && refused != IsDenied(s, k.req.tool)) then None
      else Some(Stay(s, k, if refused then Denied else Invoked))
    case Enter(_) =>
      if k.pc != Invoked then None
      else if k.req.trust == "deny" then Some(Stay(s, k, Denied))
      else Some(Stay(s, k, if NeedsConfirmation(s.gated, k.req) then Gated else Running))
    case ReadNoConfirm(_) => if k.pc != Gated then None else Some(Stay(s, k, if s.noConfirm then Running else WantLock))
    case Acquire(_) =>
      if k.pc != WantLock || (locked && s.lock.Some?) then None
      else Some(Stay(s, k, Holding).(lock := Some(c)))
    case CheckDenied(_) =>
      if k.pc != Holding then None
      else if IsDenied(s, k.req.tool) then Some(Leave(s, k, Denied))
      else Some(Stay(s, k, Checked))
    case CheckApproved(_) =>
      if k.pc != Checked then None
      else if k.req.tool in s.approvals then Some(Leave(s, k, Running))
      else if !k.req.hasUi then Some(Leave(s, k, Denied).(denials := s.denials + {k.req.tool}))
      else Some(Stay(s, k, Asking))
    case Render(_, id) =>
      if k.pc != Asking || id in s.usedIds || !SlotOk(s.slot) then None
      else Some(Stay(s, k, Shown).(promptId := id, slot := Rendered(s.slot, id), usedIds := s.usedIds + {id}))
    case FetchEvent(_) =>
      if k.pc != Shown || s.slot.pending.None? then None
      else Some(Stay(s, k, Waiting(s.slot.pending.value)))
    case Wake(_) =>
      if k.pc.Waiting? && k.pc.event < |s.slot.events| && Woken(s.slot, k.pc.event)
      then Some(Stay(s, k, Reading)) else None
    case TimeOut(_) => if k.pc.Waiting? then Some(Stay(s, k, Reading)) else None
    case ReadAction(_) => if k.pc != Reading then None else Some(Stay(s, k, Deciding(s.slot.action)))
    case Decide(_) => if k.pc.Deciding? then Some(Decided(s, k, k.pc.choice)) else None
    case Execute(_) => if k.pc != Running then None else Some(Stay(s, k, Ran))
    case _ => None
  }

  /** A step of the client, the operator or the session. */
  function WorldStep(s: State, l: Label): Option<State> {
    match l
    case Spawn(req) => Some(s.(calls := s.calls + [Call(req, Start, "")]))
    case Resolve(id, action) =>
      if SlotOk(s.slot) then Some(s.(slot := Resolved(s.slot, id, action))) else None
    case Cancel => if SlotOk(s.slot) then Some(s.(slot := CancelledSlot(s.slot))) else None
    case DenyTool(t) => Some(s.(denials := s.denials + {t}))
    case AllowTool(t) => Some(s.(denials := s.denials - {t}))
    case Approve(t) => Some(s.(approvals := s.approvals + {t}))
    case Revoke(t) => Some(s.(approvals := s.approvals - {t}))
    case NewPrompt => Some(s.(denyAll := false))
    case NewSession => Some(s.(denials := {}, denyAll := false, approvals := {}))
    case ToggleApprove(listed) =>
      if s.noConfirm then Some(s.(noConfirm := false, approvals := {}, denyAll := false))
      else Some(s.(noConfirm := true, approvals := s.approvals + listed * s.gated))
    case Register(t, confirm) => Some(s.(gated := if confirm then s.gated + {t} else s.gated - {t}))
    case _ => None
  }

  predicate InPc(s: State, c: nat, pc: Pc) { c < |s.calls| && s.calls[c].pc == pc }

  function Moved(s: State, c: nat, m: Move): State
    requires c < |s.calls|
  {
    s.(calls := s.calls[c := s.calls[c].(pc := m.pc, promptId := m.promptId)], lock := m.lock, slot := m.slot,
       usedIds := m.usedIds, denials := m.denials, denyAll := m.denyAll, approvals := m.approvals)
  }

  /** One step; `None` means the label is not possible in this state. */
  function Next(locked: bool, s: State, l: Label): Option<State> {
    match Mover(l)
    case None => WorldStep(s, l)
    case Some(c) =>
      if c >= |s.calls| then None
      else
        var m := CallMove(locked, s, l, c, s.calls[c]);
        if m.None? then None else Some(Moved(s, c, m.value))
  }

  /** The state after a whole run of labels, if every one of them was possible. */
  function Run(locked: bool, s0: State, tr: seq<Label>): Option<State> {
    if tr == [] then Some(s0)
    else
      var before := Run(locked, s0, tr[..|tr| - 1]);
      if before.None? then None else Next(locked, before.value, tr[|tr| - 1])
  }

  // ---------------------------------------------------------------------------------------------
  // Reading a run without its states
  // ---------------------------------------------------------------------------------------------

  /** The calls made so far, in order. */
  function Requests(tr: seq<Label>): seq<Request> {
    if tr == [] then []
    else Requests(tr[..|tr| - 1]) + if tr[|tr| - 1].Spawn? then [tr[|tr| - 1].req] else []
  }

  /** The last choice the client sent for prompt `id` after it was rendered; N if there was none. */
  function LastChoice(tr: seq<Label>, id: string): Choice {
    if tr == [] then N
    else
      var l := tr[|tr| - 1];
      if l.Render? && l.id == id then N
      else if l.Resolve? && l.id == id then ChoiceFor(l.action)
      else LastChoice(tr[..|tr| - 1], id)
  }

  /** Whether the client resolved prompt `id`, or cancelled, after it was rendered. */
  predicate Poked(tr: seq<Label>, id: string) {
    tr != [] &&
    var l := tr[|tr| - 1];
    if l.Render? && l.id == id then false
    else (l.Resolve? && l.id == id) || l.Cancel? || Poked(tr[..|tr| - 1], id)
  }

  /** Call `c` read its action at some moment, and by then the last choice sent for the very prompt it had
      rendered was `choice`. */
  ghost predicate Answered(tr: seq<Label>, c: nat, choice: Choice) {
    exists k: nat, id: string :: AnsweredAt(tr, c, choice, k, id)
  }

  ghost predicate AnsweredAt(tr: seq<Label>, c: nat, choice: Choice, k: nat, id: string) {
    k < |tr| && tr[k] == ReadAction(c) && Render(c, id) in tr[..k] && LastChoice(tr[..k], id) == choice
  }

  /** The tools that need confirmation after a run, and whether `/approve` is on then. */
  function GatedAfter(gated: set<string>, tr: seq<Label>): set<string> {
    if tr == [] then gated
    else
      var l, before := tr[|tr| - 1], GatedAfter(gated, tr[..|tr| - 1]);
      if l.Register? then (if l.confirm then before + {l.t} else before - {l.t}) else before
  }

  function NoConfirmAfter(noConfirm: bool, tr: seq<Label>): bool {
    if tr == [] then noConfirm
    else
      var before := NoConfirmAfter(noConfirm, tr[..|tr| - 1]);
      if tr[|tr| - 1].ToggleApprove? then !before else before
  }

  /** Step `k` switches `/approve` off. */
  predicate SwitchesOff(s0: State, tr: seq<Label>, k: nat) {
    k < |tr| && tr[k].ToggleApprove? && NoConfirmAfter(s0.noConfirm, tr[..k])
  }

  /** Call `c`, making request `req`, went past the confirmation block: the wrapper found that the tool needs no
      confirmation, or that `/approve` is on. */
  ghost predicate EnteredFree(s0: State, tr: seq<Label>, c: nat, req: Request) {
    exists k: nat :: EnteredFreeAt(s0, tr, c, req, k)
  }

  ghost predicate EnteredFreeAt(s0: State, tr: seq<Label>, c: nat, req: Request, k: nat) {
    k < |tr| && Frees(GatedAfter(s0.gated, tr[..k]), NoConfirmAfter(s0.noConfirm, tr[..k]), tr[k], c, req)
  }

  predicate Frees(gated: set<string>, noConfirm: bool, l: Label, c: nat, req: Request) {
    (l == Enter(c) && (req.tool !in gated || req.trust == "always")) || (l == ReadNoConfirm(c) && noConfirm)
  }

  /** Step `k` takes the approval of tool `t` back. */
  ghost predicate RevokedAt(s0: State, tr: seq<Label>, k: nat, t: string) {
    k < |tr| && (tr[k] == Revoke(t) || tr[k] == NewSession || SwitchesOff(s0, tr, k))
  }

  /** Step `k` approves tool `t` for the session: by the operator, by `/approve`, or by a client that answered
      some prompt for this same tool with "allow all". */
  ghost predicate GrantedAt(s0: State, tr: seq<Label>, k: nat, t: string) {
    k < |tr| &&
    match tr[k]
    case Approve(u) => u == t
    case ToggleApprove(listed) =>
      !NoConfirmAfter(s0.noConfirm, tr[..k]) && t in listed && t in GatedAfter(s0.gated, tr[..k])
    case Decide(d) => d < |Requests(tr[..k])| && Requests(tr[..k])[d].tool == t && Answered(tr[..k], d, A)
    case _ => false
  }

  /** Tool `t` was approved, from the start or by a step, and no later step took it back. */
  ghost predicate Granted(s0: State, tr: seq<Label>, t: string) {
    (t in s0.approvals && forall i: nat :: !RevokedAt(s0, tr, i, t)) ||
    exists k: nat :: GrantedAt(s0, tr, k, t) && forall i: nat :: k < i ==> !RevokedAt(s0, tr, i, t)
  }

  /** Call `c` found its tool approved, and the approval had been granted and not taken back. */
  ghost predicate FoundApproved(s0: State, tr: seq<Label>, c: nat, t: string) {
    exists k: nat :: FoundApprovedAt(s0, tr, c, t, k)
  }

  ghost predicate FoundApprovedAt(s0: State, tr: seq<Label>, c: nat, t: string, k: nat) {
    k < |tr| && tr[k] == CheckApproved(c) && Granted(s0, tr[..k], t)
  }

  /** Everything that may let call `c` run. */
  ghost predicate Authorised(s0: State, tr: seq<Label>, c: nat) {
    c < |Requests(tr)| &&
    var req := Requests(tr)[c];
    req.trust != "deny" &&
    (EnteredFree(s0, tr, c, req) || FoundApproved(s0, tr, c, req.tool) || Answered(tr, c, Y) || Answered(tr, c, A))
  }

  // ---------------------------------------------------------------------------------------------
  // The invariant
  // ---------------------------------------------------------------------------------------------

  predicate Inside(pc: Pc) {
    pc.Holding? || pc.Checked? || pc.Asking? || Prompted(pc) || pc.Deciding?
  }

  predicate Prompted(pc: Pc) { pc.Shown? || pc.Waiting? || pc.Reading? }

  /** The slot tells what the client last said about the current prompt. */
  ghost predicate SlotInv(tr: seq<Label>, slot: Slot, usedIds: set<string>) {
    SlotOk(slot) &&
    (slot.pending.Some? ==>
       slot.promptId in usedIds && slot.action == LastChoice(tr, slot.promptId) &&
       (IsSet(slot) <==> Poked(tr, slot.promptId)) &&
       (slot.cancelRequested ==> Poked(tr, slot.promptId)))
  }

  ghost predicate CallInv(s0: State, tr: seq<Label>, s: State, c: nat)
    requires c < |s.calls|
  {
    var k := s.calls[c];
    (Inside(k.pc) <==> s.lock == Some(c)) &&
    (Inside(k.pc) || k.pc.WantLock? || k.pc.Gated? ==> k.req.trust != "deny") &&
    (Prompted(k.pc) ==>
       s.slot.pending.Some? && s.slot.promptId == k.promptId && Render(c, k.promptId) in tr) &&
    (k.pc.Waiting? ==> s.slot.pending == Some(k.pc.event)) &&
    (k.pc.Deciding? ==> Answered(tr, c, k.pc.choice)) &&
    (k.pc.Running? || k.pc.Ran? ==> Authorised(s0, tr, c))
  }

  ghost predicate StateInv(s0: State, tr: seq<Label>, s: State) {
    s.gated == GatedAfter(s0.gated, tr) && s.noConfirm == NoConfirmAfter(s0.noConfirm, tr) &&
    (s.lock.Some? ==> s.lock.value < |s.calls|) &&
    |s.calls| == |Requests(tr)| && (forall c: nat :: c < |s.calls| ==> s.calls[c].req == Requests(tr)[c])
  }

  ghost predicate GrantInv(s0: State, tr: seq<Label>, approvals: set<string>) {
    forall t :: t in approvals ==> Granted(s0, tr, t)
  }

  ghost predicate Inv(s0: State, tr: seq<Label>, s: State) {
    StateInv(s0, tr, s) && SlotInv(tr, s.slot, s.usedIds) && GrantInv(s0, tr, s.approvals) &&
    forall c: nat :: c < |s.calls| ==> CallInv(s0, tr, s, c)
  }

  // ---------------------------------------------------------------------------------------------
  // Growing a run
  // ---------------------------------------------------------------------------------------------

  lemma Grow(tr: seq<Label>, l: Label)
    ensures (tr + [l])[..|tr|] == tr && (tr + [l])[|tr|] == l && |tr + [l]| == |tr| + 1
    ensures Requests(tr + [l]) == Requests(tr) + if l.Spawn? then [l.req] else []
    ensures forall k: nat :: k <= |tr| ==> (tr + [l])[..k] == tr[..k]
  {
    assert (tr + [l])[..|tr + [l]| - 1] == tr;
  }

  lemma AnsweredGrows(tr: seq<Label>, l: Label, c: nat, choice: Choice)
    requires Answered(tr, c, choice)
    ensures Answered(tr + [l], c, choice)
  {
    var k: nat, id: string :| AnsweredAt(tr, c, choice, k, id);
    assert (tr + [l])[..k] == tr[..k];
    assert AnsweredAt(tr + [l], c, choice, k, id);
  }

  lemma GrantedGrows(s0: State, tr: seq<Label>, l: Label, t: string)
    requires Granted(s0, tr, t) && !RevokedAt(s0, tr + [l], |tr|, t)
    ensures Granted(s0, tr + [l], t)
  {
    Grow(tr, l);
    forall i: nat ensures RevokedAt(s0, tr + [l], i, t) ==> RevokedAt(s0, tr, i, t) {
      if i < |tr| { assert (tr + [l])[..i] == tr[..i]; }
    }
    if k: nat :| GrantedAt(s0, tr, k, t) && forall i: nat :: k < i ==> !RevokedAt(s0, tr, i, t) {
      assert (tr + [l])[..k] == tr[..k];
      assert GrantedAt(s0, tr + [l], k, t);
    }
  }

  lemma GrantedNow(s0: State, tr: seq<Label>, l: Label, t: string)
    requires GrantedAt(s0, tr + [l], |tr|, t)
    ensures Granted(s0, tr + [l], t)
  {
    assert forall i: nat :: |tr| < i ==> !RevokedAt(s0, tr + [l], i, t);
  }

  lemma AuthorisedGrows(s0: State, tr: seq<Label>, l: Label, c: nat)
    requires Authorised(s0, tr, c)
    ensures Authorised(s0, tr + [l], c)
  {
    Grow(tr, l);
    var req := Requests(tr)[c];
    if k: nat :| EnteredFreeAt(s0, tr, c, req, k) {
      assert (tr + [l])[..k] == tr[..k];
      assert EnteredFreeAt(s0, tr + [l], c, req, k);
    } else if k: nat :| FoundApprovedAt(s0, tr, c, req.tool, k) {
      assert (tr + [l])[..k] == tr[..k];
      assert FoundApprovedAt(s0, tr + [l], c, req.tool, k);
    } else if Answered(tr, c, Y) {
      AnsweredGrows(tr, l, c, Y);
    } else {
      AnsweredGrows(tr, l, c, A);
    }
  }

  // ---------------------------------------------------------------------------------------------
  // Every step keeps the invariant
  // ---------------------------------------------------------------------------------------------

  /** What one more label means for the two readings of a run. */
  lemma GrowReadings(tr: seq<Label>, l: Label, id: string)
    ensures LastChoice(tr + [l], id) ==
            if l.Render? && l.id == id then N
            else if l.Resolve? && l.id == id then ChoiceFor(l.action) else LastChoice(tr, id)
    ensures Poked(tr + [l], id) <==>
            !(l.Render? && l.id == id) && ((l.Resolve? && l.id == id) || l.Cancel? || Poked(tr, id))
  {
    Grow(tr, l);
  }

  lemma SlotOther(tr: seq<Label>, slot: Slot, usedIds: set<string>, l: Label)
    requires SlotInv(tr, slot, usedIds) && !l.Render? && !l.Resolve? && !l.Cancel?
    ensures SlotInv(tr + [l], slot, usedIds)
  {
    GrowReadings(tr, l, slot.promptId);
  }

  lemma SlotClient(tr: seq<Label>, slot: Slot, usedIds: set<string>, id: string, action: string)
    requires SlotInv(tr, slot, usedIds)
    ensures SlotInv(tr + [Resolve(id, action)], Resolved(slot, id, action), usedIds)
    ensures SlotInv(tr + [Cancel], CancelledSlot(slot), usedIds)
  {
    GrowReadings(tr, Resolve(id, action), slot.promptId);
    GrowReadings(tr, Cancel, slot.promptId);
  }

  lemma SlotRender(tr: seq<Label>, slot: Slot, usedIds: set<string>, c: nat, id: string)
    requires SlotInv(tr, slot, usedIds)
    ensures SlotInv(tr + [Render(c, id)], Rendered(slot, id), usedIds + {id})
  {
    GrowReadings(tr, Render(c, id), id);
  }

  lemma StepSlot(s0: State, tr: seq<Label>, s: State, l: Label, s': State)
    requires Inv(s0, tr, s) && Next(true, s, l) == Some(s')
    ensures SlotInv(tr + [l], s'.slot, s'.usedIds)
  {
    if l.Render? {
      SlotRender(tr, s.slot, s.usedIds, l.c, l.id);
    } else if l.Resolve? {
      SlotClient(tr, s.slot, s.usedIds, l.id, l.action);
    } else if l.Cancel? {
      SlotClient(tr, s.slot, s.usedIds, "", "");
    } else {
      SlotOther(tr, s.slot, s.usedIds, l);
      SlotUnmoved(s, l, s');
    }
  }

  lemma SlotUnmoved(s: State, l: Label, s': State)
    requires Next(true, s, l) == Some(s') && !l.Render? && !l.Resolve? && !l.Cancel?
    ensures s'.slot == s.slot && s'.usedIds == s.usedIds
  {
    if Mover(l).Some? { MoveKeepsSlot(s, l, Mover(l).value, s.calls[Mover(l).value]); }
  }

  lemma MoveKeepsSlot(s: State, l: Label, c: nat, k: Call)
    requires CallMove(true, s, l, c, k).Some? && !l.Render?
    ensures CallMove(true, s, l, c, k).value.slot == s.slot && CallMove(true, s, l, c, k).value.usedIds == s.usedIds
  {
  }

  lemma StepState(s0: State, tr: seq<Label>, s: State, l: Label)
    requires StateInv(s0, tr, s) && Next(true, s, l).Some?
    ensures StateInv(s0, tr + [l], Next(true, s, l).value)
  {
    Grow(tr, l);
    if Mover(l).Some? {
      var c := Mover(l).value;
      MoveKeepsLock(s, l, c, s.calls[c]);
    }
  }

  lemma MoveKeepsLock(s: State, l: Label, c: nat, k: Call)
    requires CallMove(true, s, l, c, k).Some?
    ensures var m := CallMove(true, s, l, c, k).value;
            (m.lock == s.lock || m.lock == None || m.lock == Some(c)) &&
            (m.lock != s.lock ==> s.lock == None || Inside(k.pc)) &&
            (Prompted(k.pc) || !Inside(k.pc) ==> m.slot == s.slot)
  {
  }

  /** A call that does not move keeps its part: the slot's prompt changes only under the lock. */
  lemma StepOther(s0: State, tr: seq<Label>, s: State, l: Label, s': State, d: nat)
    requires Inv(s0, tr, s) && Next(true, s, l) == Some(s') && d < |s.calls| <= |s'.calls| && Mover(l) != Some(d)
    ensures CallInv(s0, tr + [l], s', d)
  {
    Grow(tr, l);
    var k := s.calls[d];
    assert CallInv(s0, tr, s, d);
    if Mover(l).Some? {
      var c := Mover(l).value;
      assert CallInv(s0, tr, s, c);
      MoveKeepsLock(s, l, c, s.calls[c]);
    }
    assert s'.calls[d] == k;
    if k.pc.Deciding? {
      AnsweredGrows(tr, l, d, k.pc.choice);
    }
    if k.pc.Running? || k.pc.Ran? {
      AuthorisedGrows(s0, tr, l, d);
    }
  }

  lemma StepInBlock(s0: State, tr: seq<Label>, s: State, l: Label, s': State, c: nat)
    requires Inv(s0, tr, s) && Next(true, s, l) == Some(s') && Mover(l) == Some(c) && c < |s'.calls|
    requires l.Render? || l.FetchEvent? || l.Wake? || l.TimeOut? || l.Acquire? || l.CheckDenied?
    ensures CallInv(s0, tr + [l], s', c)
  {
    Grow(tr, l);
    assert CallInv(s0, tr, s, c);
  }

  lemma StepApproved(s0: State, tr: seq<Label>, s: State, s': State, c: nat)
    requires Inv(s0, tr, s) && Next(true, s, CheckApproved(c)) == Some(s') && c < |s'.calls|
    ensures CallInv(s0, tr + [CheckApproved(c)], s', c)
  {
    Grow(tr, CheckApproved(c));
    assert CallInv(s0, tr, s, c);
    if s.calls[c].req.tool in s.approvals {
      assert FoundApprovedAt(s0, tr + [CheckApproved(c)], c, s.calls[c].req.tool, |tr|);
    }
  }

  lemma StepReadAction(s0: State, tr: seq<Label>, s: State, s': State, c: nat)
    requires Inv(s0, tr, s) && Next(true, s, ReadAction(c)) == Some(s') && c < |s'.calls|
    ensures CallInv(s0, tr + [ReadAction(c)], s', c)
  {
    Grow(tr, ReadAction(c));
    assert CallInv(s0, tr, s, c);
    assert AnsweredAt(tr + [ReadAction(c)], c, s.slot.action, |tr|, s.calls[c].promptId);
  }

  lemma StepDecide(s0: State, tr: seq<Label>, s: State, s': State, c: nat)
    requires Inv(s0, tr, s) && Next(true, s, Decide(c)) == Some(s') && c < |s'.calls|
    ensures CallInv(s0, tr + [Decide(c)], s', c)
  {
    Grow(tr, Decide(c));
    assert CallInv(s0, tr, s, c);
    var choice := s.calls[c].pc.choice;
    AnsweredGrows(tr, Decide(c), c, choice);
    DecidedLeaves(s, s.calls[c], choice);
  }

  /** Deciding leaves the block, to run only if the call is authorised by its answer. */
  lemma DecidedLeaves(s: State, k: Call, choice: Choice)
    ensures var m := Decided(s, k, choice);
            m.lock == None && m.slot == s.slot && m.pc in {Running, Denied, Aborted} && (m.pc == Running ==> choice in {Y, A})
  {
  }

  lemma StepOutside(s0: State, tr: seq<Label>, s: State, l: Label, s': State, c: nat)
    requires Inv(s0, tr, s) && Next(true, s, l) == Some(s') && Mover(l) == Some(c) && c < |s'.calls|
    requires l.Invoke? || l.Enter? || l.ReadNoConfirm? || l.Execute?
    ensures CallInv(s0, tr + [l], s', c)
  {
    Grow(tr, l);
    assert CallInv(s0, tr, s, c);
    if l.Execute? {
      AuthorisedGrows(s0, tr, l, c);
    } else if s'.calls[c].pc == Running {
      assert EnteredFreeAt(s0, tr + [l], c, s.calls[c].req, |tr|);
    }
  }

  lemma StepMover(s0: State, tr: seq<Label>, s: State, l: Label, s': State, c: nat)
    requires Inv(s0, tr, s) && Next(true, s, l) == Some(s') && Mover(l) == Some(c) && c < |s'.calls|
    ensures CallInv(s0, tr + [l], s', c)
  {
    if l.CheckApproved? {
      StepApproved(s0, tr, s, s', c);
    } else if l.ReadAction? {
      StepReadAction(s0, tr, s, s', c);
    } else if l.Decide? {
      StepDecide(s0, tr, s, s', c);
    } else if l.Invoke? || l.Enter? || l.ReadNoConfirm? || l.Execute? {
      StepOutside(s0, tr, s, l, s', c);
    } else {
      StepInBlock(s0, tr, s, l, s', c);
    }
  }

  lemma NewApproval(s: State, l: Label, s': State, t: string)
    requires Next(true, s, l) == Some(s') && t in s'.approvals && t !in s.approvals
    ensures l == Approve(t) || (l.ToggleApprove? && !s.noConfirm && t in l.listed && t in s.gated) ||
            (l.Decide? && l.c < |s.calls| && s.calls[l.c].pc == Deciding(A) && s.calls[l.c].req.tool == t)
  {
  }

  lemma StepGrants(s0: State, tr: seq<Label>, s: State, l: Label, s': State)
    requires Inv(s0, tr, s) && Next(true, s, l) == Some(s')
    ensures GrantInv(s0, tr + [l], s'.approvals)
  {
    Grow(tr, l);
    forall t | t in s'.approvals ensures Granted(s0, tr + [l], t) {
      if t in s.approvals {
        GrantedGrows(s0, tr, l, t);
      } else {
        NewApproval(s, l, s', t);
        if l.Decide? { assert CallInv(s0, tr, s, l.c); }
        assert GrantedAt(s0, tr + [l], |tr|, t);
        GrantedNow(s0, tr, l, t);
      }
    }
  }

  lemma StepKeepsInv(s0: State, tr: seq<Label>, s: State, l: Label, s': State)
    requires Inv(s0, tr, s) && Next(true, s, l) == Some(s')
    ensures Inv(s0, tr + [l], s')
  {
    StepState(s0, tr, s, l);
    StepSlot(s0, tr, s, l, s');
    StepGrants(s0, tr, s, l, s');
    forall c: nat | c < |s'.calls| ensures CallInv(s0, tr + [l], s', c) {
      if c == |s.calls| {
        assert l.Spawn?;
      } else if Mover(l) == Some(c) {
        StepMover(s0, tr, s, l, s', c);
      } else {
        StepOther(s0, tr, s, l, s', c);
      }
    }
  }

  lemma {:induction false} RunKeepsInv(s0: State, tr: seq<Label>)
    requires Initial(s0) && Run(true, s0, tr).Some?
    ensures Inv(s0, tr, Run(true, s0, tr).value)
  {
    if tr == [] {
    } else {
      var pre := tr[..|tr| - 1];
      RunKeepsInv(s0, pre);
      StepKeepsInv(s0, pre, Run(true, s0, pre).value, tr[|tr| - 1], Run(true, s0, tr).value);
      assert tr == pre + [tr[|tr| - 1]];
    }
  }
}
