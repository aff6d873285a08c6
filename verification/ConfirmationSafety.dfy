/** What every run of the confirmation protocol guarantees, and what it would not without the lock. */
module ConfirmationSafety {
  import opened Options
  import opened ConfirmationUi
  import opened ConfirmationProtocol

  // ---------------------------------------------------------------------------------------------
  // Safety
  // ---------------------------------------------------------------------------------------------

  /** In every interleaving of any number of calls, resolves, cancels, timeouts and operator actions, a
      tool runs only if its trust is not "deny" and its wrapper found that it needs no confirmation or that
      `/approve` is on, or found the tool approved with nobody having taken that back, or the last answer sent for
      the very prompt it rendered was "allow" or "allow all". */
  lemma OnlyAuthorisedCallsRun(s0: State, tr: seq<Label>, c: nat)
    requires Initial(s0) && Run(true, s0, tr).Some?
    requires c < |Run(true, s0, tr).value.calls|
    requires Run(true, s0, tr).value.calls[c].pc in {Running, Ran}
    ensures Authorised(s0, tr, c)
    ensures Run(true, s0, tr).value.calls[c].req == Requests(tr)[c]
  {
    RunKeepsInv(s0, tr);
    assert CallInv(s0, tr, Run(true, s0, tr).value, c);
  }

  ghost predicate ResolvedAt(tr: seq<Label>, j: nat, id: string, choice: Choice) {
    j < |tr| && tr[j].Resolve? && tr[j].id == id && ChoiceFor(tr[j].action) == choice
    && forall i :: j < i < |tr| && (tr[i].Resolve? || tr[i].Render?) ==> tr[i].id != id
  }

  /** An answer other than the default was sent by a resolve that carries the prompt's id, comes after the
      prompt was rendered, and is the last such. */
  lemma {:induction false} AnswersAreSent(tr: seq<Label>, id: string)
    requires LastChoice(tr, id) != N
    ensures exists j: nat :: ResolvedAt(tr, j, id, LastChoice(tr, id))
  {
    var last := |tr| - 1;
    if tr[last].Resolve? && tr[last].id == id {
      assert ResolvedAt(tr, last, id, LastChoice(tr, id));
    } else {
      AnswersAreSent(tr[..last], id);
      var j: nat :| ResolvedAt(tr[..last], j, id, LastChoice(tr[..last], id));
      assert forall i :: 0 <= i < last ==> tr[i] == tr[..last][i];
      assert ResolvedAt(tr, j, id, LastChoice(tr, id));
    }
  }

  /** Call `c` rendered prompt `id`, then the client sent `action` for that id, then `c` read it. */
  ghost predicate Asked(tr: seq<Label>, c: nat, action: string, i: nat, j: nat, k: nat, id: string) {
    i < j < k < |tr| && tr[i] == Render(c, id) && tr[j] == Resolve(id, action) && tr[k] == ReadAction(c)
  }

  lemma ApprovingAction(action: string)
    ensures ChoiceFor(action) == Y ==> action == "allow"
    ensures ChoiceFor(action) == A ==> action == "allow_all"
  {
  }

  lemma AnswerFollowsPrompt(tr: seq<Label>, c: nat, choice: Choice, k: nat, id: string)
    returns (i: nat, j: nat)
    requires AnsweredAt(tr, c, choice, k, id) && choice != N
    ensures i < j < k && tr[i] == Render(c, id) && ResolvedAt(tr[..k], j, id, choice)
  {
    var pre := tr[..k];
    AnswersAreSent(pre, id);
    j :| ResolvedAt(pre, j, id, choice);
    i :| i < |pre| && pre[i] == Render(c, id);
    assert pre[i].Render? && pre[i].id == id && pre[j].Resolve?;
  }

  /** A resolve that names another prompt, or comes before this one was rendered, authorises nothing. */
  lemma ApprovalNamesThisPrompt(tr: seq<Label>, c: nat, choice: Choice)
    requires Answered(tr, c, choice) && choice in {Y, A}
    ensures var action := if choice == Y then "allow" else "allow_all";
            exists i: nat, j: nat, k: nat, id: string :: Asked(tr, c, action, i, j, k, id)
  {
    var k: nat, id: string :| AnsweredAt(tr, c, choice, k, id);
    var i, j := AnswerFollowsPrompt(tr, c, choice, k, id);
    assert tr[j] == tr[..k][j];
    ApprovingAction(tr[j].action);
    assert Asked(tr, c, if choice == Y then "allow" else "allow_all", i, j, k, id);
  }

  /** The answer is read exactly: a call about to read proceeds to run if and only if the client's last word
      on its prompt was "allow" or "allow all", and silence denies. */
  lemma PromptIsAnsweredExactly(s0: State, tr: seq<Label>, c: nat)
    requires Initial(s0) && Run(true, s0, tr).Some? && InPc(Run(true, s0, tr).value, c, Reading)
    ensures var s := Run(true, s0, tr).value;
            var after := Run(true, s0, tr + [ReadAction(c)] + [Decide(c)]);
            var choice := LastChoice(tr, s.calls[c].promptId);
            after.Some? && c < |after.value.calls| &&
            after.value.calls[c].pc ==
              (if choice in {Y, A} then Running else if choice == C then Aborted else Denied) &&
            after.value.lock == None &&
            after.value.approvals == s.approvals + (if choice == A then {s.calls[c].req.tool} else {}) &&
            after.value.denials == s.denials + (if choice == D then {s.calls[c].req.tool} else {}) &&
            after.value.denyAll == (s.denyAll || choice == F)
  {
    RunKeepsInv(s0, tr);
    var s := Run(true, s0, tr).value;
    assert CallInv(s0, tr, s, c);
    RunsToDecision(s0, tr, s, c);
    DecidedExactly(s, s.calls[c], s.slot.action);
  }

  lemma RunsToDecision(s0: State, tr: seq<Label>, s: State, c: nat)
    requires Run(true, s0, tr) == Some(s) && InPc(s, c, Reading)
    ensures Run(true, s0, tr + [ReadAction(c)] + [Decide(c)]) == Some(Moved(s, c, Decided(s, s.calls[c], s.slot.action)))
  {
    Grow(tr, ReadAction(c));
    Grow(tr + [ReadAction(c)], Decide(c));
    ReadAndDecide(s, c);
    assert Run(true, s0, tr + [ReadAction(c)]) == Next(true, s, ReadAction(c));
  }

  lemma DecidedExactly(s: State, k: Call, choice: Choice)
    ensures var m := Decided(s, k, choice);
            m.pc == (if choice in {Y, A} then Running else if choice == C then Aborted else Denied) && m.lock == None &&
            m.approvals == s.approvals + (if choice == A then {k.req.tool} else {}) &&
            m.denials == s.denials + (if choice == D then {k.req.tool} else {}) &&
            m.denyAll == (s.denyAll || choice == F)
  {
  }

  /** What reading the slot and deciding do to the state. */
  lemma ReadAndDecide(s: State, c: nat)
    requires InPc(s, c, Reading)
    ensures Next(true, s, ReadAction(c)) == Some(s.(calls := s.calls[c := s.calls[c].(pc := Deciding(s.slot.action))]))
    ensures var m := Decided(s, s.calls[c], s.slot.action);
            Next(true, Next(true, s, ReadAction(c)).value, Decide(c)) == Some(Moved(s, c, m))
  {
    var s1 := Next(true, s, ReadAction(c)).value;
    assert Moved(s1, c, Decided(s1, s1.calls[c], s.slot.action)) == Moved(s, c, Decided(s, s.calls[c], s.slot.action));
  }

  /** A reader is woken before its deadline exactly when the client resolved this prompt or cancelled after
      it was rendered: never by an answer to an earlier prompt. */
  lemma WokenByThisPromptOnly(s0: State, tr: seq<Label>, c: nat)
    requires Initial(s0) && Run(true, s0, tr).Some?
    requires c < |Run(true, s0, tr).value.calls| && Run(true, s0, tr).value.calls[c].pc.Waiting?
    ensures var s := Run(true, s0, tr).value;
            Next(true, s, Wake(c)).Some? <==> Poked(tr, s.calls[c].promptId)
  {
    RunKeepsInv(s0, tr);
    assert CallInv(s0, tr, Run(true, s0, tr).value, c);
  }

  /** How many more of its own steps a call inside the block can take before it leaves. */
  function StepsLeft(pc: Pc): nat {
    match pc
    case Holding => 7
    case Checked => 6
    case Asking => 5
    case Shown => 4
    case Waiting(_) => 3
    case Reading => 2
    case Deciding(_) => 1
    case _ => 0
  }

  /** The lock is never held for ever: its holder can always move by itself, given a fresh prompt id, and
      leaves the block after at most seven of its own steps. At most one call is inside. */
  lemma HolderIsNeverStuck(s0: State, tr: seq<Label>, c: nat, freshId: string)
    requires Initial(s0) && Run(true, s0, tr).Some? && Run(true, s0, tr).value.lock == Some(c)
    requires freshId !in Run(true, s0, tr).value.usedIds
    ensures var s := Run(true, s0, tr).value;
            c < |s.calls| && (forall d: nat :: d < |s.calls| && Inside(s.calls[d].pc) ==> d == c) &&
            exists l :: Mover(l) == Some(c) && Next(true, s, l).Some? &&
                        StepsLeft(Next(true, s, l).value.calls[c].pc) < StepsLeft(s.calls[c].pc)
  {
    RunKeepsInv(s0, tr);
    var s := Run(true, s0, tr).value;
    assert CallInv(s0, tr, s, c);
    forall d: nat | d < |s.calls| && Inside(s.calls[d].pc) ensures d == c {
      assert CallInv(s0, tr, s, d);
    }
    HolderMoves(s, c, freshId);
  }

  /** The holder's own next step. */
  function NextStep(pc: Pc, c: nat, freshId: string): Label {
    match pc
    case Holding => CheckDenied(c)
    case Checked => CheckApproved(c)
    case Asking => Render(c, freshId)
    case Shown => FetchEvent(c)
    case Waiting(_) => TimeOut(c)
    case Reading => ReadAction(c)
    case _ => Decide(c)
  }

  lemma HolderMoves(s: State, c: nat, freshId: string)
    requires c < |s.calls| && SlotOk(s.slot) && Inside(s.calls[c].pc) && freshId !in s.usedIds
    requires s.calls[c].pc.Shown? ==> s.slot.pending.Some?
    ensures var l := NextStep(s.calls[c].pc, c, freshId);
            Mover(l) == Some(c) && Next(true, s, l).Some? &&
            StepsLeft(Next(true, s, l).value.calls[c].pc) < StepsLeft(s.calls[c].pc)
  {
    HolderMove(s, c, s.calls[c], freshId);
  }

  lemma HolderMove(s: State, c: nat, k: Call, freshId: string)
    requires SlotOk(s.slot) && Inside(k.pc) && freshId !in s.usedIds && (k.pc.Shown? ==> s.slot.pending.Some?)
    ensures var m := CallMove(true, s, NextStep(k.pc, c, freshId), c, k);
            m.Some? && StepsLeft(m.value.pc) < StepsLeft(k.pc)
  {
  }

  // ---------------------------------------------------------------------------------------------
  // Building runs
  // ---------------------------------------------------------------------------------------------

  /** Takes one more step of a run. */
  lemma Go(locked: bool, s0: State, tr: seq<Label>, s: State, l: Label) returns (tr': seq<Label>, s': State)
    requires Run(locked, s0, tr) == Some(s) && Next(locked, s, l).Some?
    ensures tr' == tr + [l] && Some(s') == Next(locked, s, l) && Run(locked, s0, tr') == Some(s')
  {
    tr', s' := tr + [l], Next(locked, s, l).value;
    Grow(tr, l);
  }

  lemma RunOne(locked: bool, s: State, l: Label)
    ensures Run(locked, s, [l]) == Next(locked, s, l)
  {
    assert [l][..0] == [];
  }

  /** The same for a step of call `c`. */
  lemma GoCall(locked: bool, s0: State, tr: seq<Label>, s: State, l: Label, c: nat) returns (tr': seq<Label>, s': State)
    requires Run(locked, s0, tr) == Some(s) && Mover(l) == Some(c) && c < |s.calls|
    requires CallMove(locked, s, l, c, s.calls[c]).Some?
    ensures tr' == tr + [l] && Run(locked, s0, tr') == Some(s')
    ensures s' == Moved(s, c, CallMove(locked, s, l, c, s.calls[c]).value)
  {
    tr', s' := Go(locked, s0, tr, s, l);
  }

  /** The same for a step of anyone else. */
  lemma GoWorld(locked: bool, s0: State, tr: seq<Label>, s: State, l: Label) returns (tr': seq<Label>, s': State)
    requires Run(locked, s0, tr) == Some(s) && Mover(l) == None && WorldStep(s, l).Some?
    ensures tr' == tr + [l] && Run(locked, s0, tr') == Some(s') && WorldStep(s, l) == Some(s')
  {
    tr', s' := Go(locked, s0, tr, s, l);
  }

  lemma Appended(tr: seq<Label>, a: Label, b: Label, c: Label)
    ensures tr + [a] + [b] == tr + [a, b] && tr + [a] + [b] + [c] == tr + [a, b, c]
    ensures tr + [a, b] + [c] == tr + [a, b, c]
  {
  }

  // ---------------------------------------------------------------------------------------------
  // Denials and approvals last
  // ---------------------------------------------------------------------------------------------

  lemma {:induction false} RunJoins(locked: bool, s0: State, a: seq<Label>, b: seq<Label>)
    requires Run(locked, s0, a).Some?
    ensures Run(locked, s0, a + b) == Run(locked, Run(locked, s0, a).value, b)
  {
    if b == [] {
      assert a + b == a;
    } else {
      RunJoins(locked, s0, a, b[..|b| - 1]);
      assert (a + b)[..|a + b| - 1] == a + b[..|b| - 1];
    }
  }

  lemma {:induction false} ReadingsAreExact(locked: bool, s: State, tr: seq<Label>)
    requires Run(locked, s, tr).Some?
    ensures var s' := Run(locked, s, tr).value;
            s'.gated == GatedAfter(s.gated, tr) && s'.noConfirm == NoConfirmAfter(s.noConfirm, tr)
  {
    if tr != [] {
      ReadingsAreExact(locked, s, tr[..|tr| - 1]);
      StepReadings(locked, Run(locked, s, tr[..|tr| - 1]).value, tr[|tr| - 1]);
    }
  }

  lemma StepReadings(locked: bool, s: State, l: Label)
    requires Next(locked, s, l).Some?
    ensures Next(locked, s, l).value.gated == GatedAfter(s.gated, [l])
    ensures Next(locked, s, l).value.noConfirm == NoConfirmAfter(s.noConfirm, [l])
  {
    assert [l][..0] == [];
    assert GatedAfter(s.gated, []) == s.gated && NoConfirmAfter(s.noConfirm, []) == s.noConfirm;
  }

  /** Nothing in the run takes the denial of `t` back: a denial of the tool is undone by allowing it or by a new
      session, a denial of all tools also by a new prompt or by switching `/approve` off. */
  ghost predicate KeepsDenied(s: State, tr: seq<Label>, t: string) {
    AllowTool(t) !in tr && NewSession !in tr &&
    (t in s.denials || (NewPrompt !in tr && forall k: nat :: !SwitchesOff(s, tr, k)))
  }

  lemma DeniedStep(locked: bool, s: State, l: Label, s': State, t: string)
    requires Next(locked, s, l) == Some(s') && IsDenied(s, t) && l != AllowTool(t) && !l.NewSession?
    requires t in s.denials || (!l.NewPrompt? && !(l.ToggleApprove? && s.noConfirm))
    ensures IsDenied(s', t) && (t in s.denials ==> t in s'.denials)
  {
  }

  lemma {:induction false} DenialLasts(locked: bool, s: State, tr: seq<Label>, t: string)
    requires IsDenied(s, t) && KeepsDenied(s, tr, t) && Run(locked, s, tr).Some?
    ensures var s' := Run(locked, s, tr).value; IsDenied(s', t) && (t in s.denials ==> t in s'.denials)
  {
    if tr != [] {
      var n := |tr| - 1;
      var pre, l := tr[..n], tr[n];
      KeepsDeniedBefore(s, tr, t, n);
      DenialLasts(locked, s, pre, t);
      ReadingsAreExact(locked, s, pre);
      assert l in tr && (l.ToggleApprove? && NoConfirmAfter(s.noConfirm, pre) ==> SwitchesOff(s, tr, n));
      DeniedStep(locked, Run(locked, s, pre).value, l, Run(locked, s, tr).value, t);
    }
  }

  lemma KeepsDeniedBefore(s: State, tr: seq<Label>, t: string, n: nat)
    requires KeepsDenied(s, tr, t) && n <= |tr|
    ensures KeepsDenied(s, tr[..n], t)
  {
    forall k: nat | SwitchesOff(s, tr[..n], k) ensures SwitchesOff(s, tr, k) {
      assert tr[..n][..k] == tr[..k];
    }
  }

  /** Where a call is that the wrapper's denial check has not let through, and that needed it. */
  predicate BeforeCheck(pc: Pc) { pc in {Start, Invoked, Gated, WantLock, Holding, Denied} }

  predicate NotPast(s: State, c: nat) { c < |s.calls| ==> BeforeCheck(s.calls[c].pc) }

  /** What a call of a denied tool can have come to. */
  ghost predicate RunsOnlyFree(s: State, tr: seq<Label>, s': State, c: nat, t: string) {
    c < |s'.calls| && s'.calls[c].req.tool == t && s'.calls[c].req.trust != "deny" ==>
      (BeforeCheck(s'.calls[c].pc) || s'.calls[c].pc in {Running, Ran}) &&
      (s'.calls[c].pc in {Running, Ran} <==> EnteredFree(s, tr, c, s'.calls[c].req))
  }

  lemma FreeGrows(s: State, tr: seq<Label>, l: Label, c: nat, req: Request)
    ensures EnteredFree(s, tr + [l], c, req) <==>
            EnteredFree(s, tr, c, req) ||
            Frees(GatedAfter(s.gated, tr), NoConfirmAfter(s.noConfirm, tr), l, c, req)
  {
    Grow(tr, l);
    if k: nat :| EnteredFreeAt(s, tr, c, req, k) {
      assert (tr + [l])[..k] == tr[..k];
      assert EnteredFreeAt(s, tr + [l], c, req, k);
    }
    if k: nat :| EnteredFreeAt(s, tr + [l], c, req, k) {
      assert (tr + [l])[..k] == tr[..k];
      assert k < |tr| ==> EnteredFreeAt(s, tr, c, req, k);
    }
    if Frees(GatedAfter(s.gated, tr), NoConfirmAfter(s.noConfirm, tr), l, c, req) {
      assert EnteredFreeAt(s, tr + [l], c, req, |tr|);
    }
  }

  /** One step of a denied tool's call: only going past the confirmation block takes it past the check, and it does
      so once. */
  lemma DeniedCallStep(locked: bool, s: State, l: Label, s': State, c: nat)
    requires Next(locked, s, l) == Some(s') && c < |s.calls| <= |s'.calls| && IsDenied(s, s.calls[c].req.tool)
    requires (BeforeCheck(s.calls[c].pc) || s.calls[c].pc in {Running, Ran}) && s.calls[c].req.trust != "deny"
    ensures s'.calls[c].req == s.calls[c].req && (BeforeCheck(s'.calls[c].pc) || s'.calls[c].pc in {Running, Ran})
    ensures s'.calls[c].pc in {Running, Ran} <==>
              s.calls[c].pc in {Running, Ran} || Frees(s.gated, s.noConfirm, l, c, s.calls[c].req)
  {
    if Mover(l) == Some(c) {
      DeniedMove(locked, s, l, c, s.calls[c]);
    } else {
      OthersStay(locked, s, l, s', c);
    }
  }

  lemma DeniedMove(locked: bool, s: State, l: Label, c: nat, k: Call)
    requires CallMove(locked, s, l, c, k).Some? && Mover(l) == Some(c) && IsDenied(s, k.req.tool) && k.req.trust != "deny"
    requires BeforeCheck(k.pc) || k.pc in {Running, Ran}
    ensures var pc := CallMove(locked, s, l, c, k).value.pc;
            (BeforeCheck(pc) || pc in {Running, Ran}) &&
            (pc in {Running, Ran} <==> k.pc in {Running, Ran} || Frees(s.gated, s.noConfirm, l, c, k.req))
  {
  }

  lemma OthersStay(locked: bool, s: State, l: Label, s': State, c: nat)
    requires Next(locked, s, l) == Some(s') && c < |s.calls| <= |s'.calls| && Mover(l) != Some(c)
    ensures s'.calls[c] == s.calls[c]
  {
  }

  lemma CallsStay(locked: bool, s: State, l: Label, s': State)
    requires Next(locked, s, l) == Some(s')
    ensures |s.calls| <= |s'.calls| <= |s.calls| + 1
    ensures forall c: nat :: |s.calls| <= c < |s'.calls| ==> s'.calls[c].pc == Start && Mover(l) == None
    ensures forall c: nat :: c < |s.calls| ==> s'.calls[c].req == s.calls[c].req
  {
  }

  lemma {:induction false} NobodyEntersUnborn(locked: bool, s: State, tr: seq<Label>, c: nat, req: Request)
    requires Run(locked, s, tr).Some? && c >= |Run(locked, s, tr).value.calls|
    ensures !EnteredFree(s, tr, c, req) && c >= |s.calls|
  {
    if tr != [] {
      var pre, l := tr[..|tr| - 1], tr[|tr| - 1];
      CallsStay(locked, Run(locked, s, pre).value, l, Run(locked, s, tr).value);
      NobodyEntersUnborn(locked, s, pre, c, req);
      assert tr == pre + [l];
      FreeGrows(s, pre, l, c, req);
    }
  }

  /** In the wrapper denials are absorbing: from a state where `t` is denied, in any continuation that does not take
      this back, with or without the lock and whatever the approvals, a call of `t` that had still to pass the
      wrapper's denial check runs if and only if the wrapper takes it past the confirmation block. */
  lemma {:induction false} DenialIsAbsorbing(locked: bool, s: State, tr: seq<Label>, c: nat, t: string)
    requires IsDenied(s, t) && NotPast(s, c) && KeepsDenied(s, tr, t) && Run(locked, s, tr).Some?
    ensures RunsOnlyFree(s, tr, Run(locked, s, tr).value, c, t)
  {
    var s' := Run(locked, s, tr).value;
    if tr != [] && c < |s'.calls| && s'.calls[c].req.tool == t && s'.calls[c].req.trust != "deny" {
      var pre, l := tr[..|tr| - 1], tr[|tr| - 1];
      var before := Run(locked, s, pre).value;
      KeepsDeniedBefore(s, tr, t, |pre|);
      DenialIsAbsorbing(locked, s, pre, c, t);
      DenialLasts(locked, s, pre, t);
      ReadingsAreExact(locked, s, pre);
      CallsStay(locked, before, l, s');
      assert tr == pre + [l];
      FreeGrows(s, pre, l, c, s'.calls[c].req);
      if c < |before.calls| {
        DeniedCallStep(locked, before, l, s', c);
      } else {
        NobodyEntersUnborn(locked, s, pre, c, s'.calls[c].req);
      }
    }
  }

  /** So while `/approve` stays off and the tool's metadata is not rewritten, no such call runs, not even one that
      the invoker had let through before the denial. */
  lemma DeniedWhileApproveIsOff(locked: bool, s: State, tr: seq<Label>, c: nat, t: string)
    requires IsDenied(s, t) && NotPast(s, c) && KeepsDenied(s, tr, t) && Run(locked, s, tr).Some?
    requires t in s.gated && !s.noConfirm && forall l :: l in tr ==> !l.ToggleApprove? && l != Register(t, false)
    ensures var s' := Run(locked, s, tr).value;
            (c < |s'.calls| && s'.calls[c].req.tool == t && s'.calls[c].req.trust !in {"deny", "always"})
              ==> s'.calls[c].pc !in {Running, Ran}
  {
    var s' := Run(locked, s, tr).value;
    DenialIsAbsorbing(locked, s, tr, c, t);
    forall k: nat | k < |tr| ensures t in GatedAfter(s.gated, tr[..k]) && !NoConfirmAfter(s.noConfirm, tr[..k]) {
      StaysGated(s, tr[..k], t);
    }
  }

  lemma {:induction false} StaysGated(s: State, tr: seq<Label>, t: string)
    requires t in s.gated && !s.noConfirm && forall l :: l in tr ==> !l.ToggleApprove? && l != Register(t, false)
    ensures t in GatedAfter(s.gated, tr) && !NoConfirmAfter(s.noConfirm, tr)
  {
    if tr != [] {
      assert tr[|tr| - 1] in tr;
      StaysGated(s, tr[..|tr| - 1], t);
    }
  }

  // ---------------------------------------------------------------------------------------------
  // The invoker's check
  // ---------------------------------------------------------------------------------------------

  /** Call `c`, if it is of tool `t` and runs on the wrapper's session state, has not been let through. */
  predicate NotInvoked(s: State, c: nat, t: string) {
    c < |s.calls| && s.calls[c].req.tool == t && s.calls[c].req.shared ==> s.calls[c].pc in {Start, Denied}
  }

  lemma NotInvokedStep(locked: bool, s: State, l: Label, s': State, c: nat, t: string)
    requires Next(locked, s, l) == Some(s') && IsDenied(s, t) && NotInvoked(s, c, t)
    ensures NotInvoked(s', c, t)
  {
    CallsStay(locked, s, l, s');
    if c < |s.calls| && Mover(l) != Some(c) { OthersStay(locked, s, l, s', c); }
  }

  /** With one session state for the invoker and the wrapper, no call of a denied tool that has yet to be invoked ever
      runs while the denial stands: whatever `/approve`, the approvals, the tool's metadata and its trust, with or
      without the lock. */
  lemma {:induction false} DeniedToolsNeverRun(locked: bool, s: State, tr: seq<Label>, c: nat, t: string)
    requires IsDenied(s, t) && NotInvoked(s, c, t) && KeepsDenied(s, tr, t) && Run(locked, s, tr).Some?
    ensures NotInvoked(Run(locked, s, tr).value, c, t)
  {
    if tr != [] {
      var n := |tr| - 1;
      KeepsDeniedBefore(s, tr, t, n);
      DeniedToolsNeverRun(locked, s, tr[..n], c, t);
      DenialLasts(locked, s, tr[..n], t);
      NotInvokedStep(locked, Run(locked, s, tr[..n]).value, tr[n], Run(locked, s, tr).value, c, t);
    }
  }

  /** Some run of the new call `req` gets it to run, with nobody taking the denial of its tool back. */
  ghost predicate StillRuns(s: State, tr: seq<Label>, req: Request) {
    KeepsDenied(s, tr, req.tool) && tr != [] && tr[0] == Spawn(req) &&
    Run(true, s, tr).Some? && InPc(Run(true, s, tr).value, |s.calls|, Ran)
  }

  /** While its tool is denied a new call can still run if and only if the graph runs it on another session state than
      its wrapper's, where the invoker does not see the denial; switching `/approve` on then opens the wrapper. */
  lemma NewCallStillRunsIff(s: State, req: Request)
    requires IsDenied(s, req.tool) && req.trust != "deny"
    ensures (exists tr: seq<Label> :: StillRuns(s, tr, req)) <==> !req.shared
  {
    if req.shared {
      forall tr: seq<Label> ensures !StillRuns(s, tr, req) {
        if KeepsDenied(s, tr, req.tool) && tr != [] && tr[0] == Spawn(req) && Run(true, s, tr).Some? {
          NewCallNeverRuns(s, tr, req);
        }
      }
    } else {
      var tr := SplitSessionRuns(s, req);
    }
  }

  lemma NewCallNeverRuns(s: State, tr: seq<Label>, req: Request)
    requires IsDenied(s, req.tool) && req.shared && KeepsDenied(s, tr, req.tool)
    requires tr != [] && tr[0] == Spawn(req) && Run(true, s, tr).Some?
    ensures !InPc(Run(true, s, tr).value, |s.calls|, Ran)
  {
    DeniedToolsNeverRun(true, s, tr, |s.calls|, req.tool);
    RequestStays(s, tr, req);
  }

  lemma {:induction false} RequestStays(s: State, tr: seq<Label>, req: Request)
    requires tr != [] && tr[0] == Spawn(req) && Run(true, s, tr).Some?
    ensures |s.calls| < |Run(true, s, tr).value.calls| && Run(true, s, tr).value.calls[|s.calls|].req == req
  {
    var pre := tr[..|tr| - 1];
    if pre == [] {
      assert Run(true, s, pre) == Some(s);
    } else {
      RequestStays(s, pre, req);
      CallsStay(true, Run(true, s, pre).value, tr[|tr| - 1], Run(true, s, tr).value);
    }
  }

  lemma SplitSessionRuns(s: State, req: Request) returns (tr: seq<Label>)
    requires IsDenied(s, req.tool) && req.trust != "deny" && !req.shared
    ensures StillRuns(s, tr, req)
  {
    var opening, cur := ApproveIsOn(s, req);
    var end;
    tr, end := FreeRuns(s, opening, cur, |s.calls|);
    CallsKeepDenied(s, req, opening, tr, |s.calls|);
  }

  /** A new call, and `/approve` switched on unless it is on. */
  predicate Opening(s: State, req: Request, tr: seq<Label>) {
    1 <= |tr| <= 2 && tr[0] == Spawn(req) && (|tr| == 2 ==> !s.noConfirm && tr[1] == ToggleApprove({}))
  }

  lemma ApproveIsOn(s: State, req: Request) returns (tr: seq<Label>, cur: State)
    ensures Run(true, s, tr) == Some(cur) && cur.noConfirm && InPc(cur, |s.calls|, Start)
    ensures cur.calls[|s.calls|].req == req && Opening(s, req, tr)
  {
    tr, cur := CallSpawned(s, req);
    if !s.noConfirm { tr, cur := SwitchedOn(s, tr, cur); }
  }

  lemma CallSpawned(s: State, req: Request) returns (tr: seq<Label>, cur: State)
    ensures |tr| == 1 && tr[0] == Spawn(req) && Run(true, s, tr) == Some(cur)
    ensures cur == s.(calls := s.calls + [Call(req, Start, "")])
  {
    RunOne(true, s, Spawn(req));
    tr, cur := [Spawn(req)], s.(calls := s.calls + [Call(req, Start, "")]);
  }

  lemma SwitchedOn(s0: State, tr0: seq<Label>, s1: State) returns (tr: seq<Label>, cur: State)
    requires Run(true, s0, tr0) == Some(s1) && !s1.noConfirm
    ensures tr == tr0 + [ToggleApprove({})] && Run(true, s0, tr) == Some(cur)
    ensures cur.noConfirm && cur.calls == s1.calls && cur.denials == s1.denials && cur.denyAll == s1.denyAll
  {
    tr, cur := GoWorld(true, s0, tr0, s1, ToggleApprove({}));
  }

  lemma CallsKeepDenied(s: State, req: Request, opening: seq<Label>, tr: seq<Label>, c: nat)
    requires IsDenied(s, req.tool) && Opening(s, req, opening) && opening <= tr
    requires forall k :: |opening| <= k < |tr| ==> Mover(tr[k]) == Some(c)
    ensures KeepsDenied(s, tr, req.tool) && tr[0] == Spawn(req)
  {
    forall k: nat ensures !SwitchesOff(s, tr, k) {
      if k < |tr| && tr[k].ToggleApprove? {
        assert k < |opening| ==> tr[k] == opening[k];
        NothingToggled(s.noConfirm, tr[..k]);
      }
    }
    forall l | l in tr ensures l.Spawn? || l.ToggleApprove? || Mover(l) == Some(c) {
      var k :| 0 <= k < |tr| && tr[k] == l;
      assert k < |opening| ==> tr[k] == opening[k];
    }
  }

  lemma {:induction false} NothingToggled(noConfirm: bool, tr: seq<Label>)
    requires forall k :: 0 <= k < |tr| ==> !tr[k].ToggleApprove?
    ensures NoConfirmAfter(noConfirm, tr) == noConfirm
  {
    if tr != [] { NothingToggled(noConfirm, tr[..|tr| - 1]); }
  }

  /** With `/approve` on, an invoked call goes past the confirmation block and runs. */
  lemma FreeRuns(s0: State, tr0: seq<Label>, s1: State, c: nat) returns (tr: seq<Label>, s: State)
    requires Run(true, s0, tr0) == Some(s1) && InPc(s1, c, Start) && s1.noConfirm
    requires s1.calls[c].req.trust != "deny" && !s1.calls[c].req.shared
    ensures Run(true, s0, tr) == Some(s) && InPc(s, c, Ran)
    ensures tr0 <= tr && forall k :: |tr0| <= k < |tr| ==> Mover(tr[k]) == Some(c)
  {
    tr, s := GoCall(true, s0, tr0, s1, Invoke(c, false), c);
    tr, s := EntersFree(s0, tr, s, c);
  }

  lemma EntersFree(s0: State, tr0: seq<Label>, s1: State, c: nat) returns (tr: seq<Label>, s: State)
    requires Run(true, s0, tr0) == Some(s1) && InPc(s1, c, Invoked) && s1.noConfirm && s1.calls[c].req.trust != "deny"
    ensures Run(true, s0, tr) == Some(s) && InPc(s, c, Ran) && s.denials == s1.denials && s.denyAll == s1.denyAll
    ensures |tr0| < |tr| && tr0 <= tr && forall k :: |tr0| <= k < |tr| ==> Mover(tr[k]) == Some(c)
  {
    tr, s := GoesFree(s0, tr0, s1, c);
    tr, s := Executes(true, s0, tr, s, c);
  }

  lemma GoesFree(s0: State, tr0: seq<Label>, s1: State, c: nat) returns (tr: seq<Label>, s: State)
    requires Run(true, s0, tr0) == Some(s1) && InPc(s1, c, Invoked) && s1.noConfirm && s1.calls[c].req.trust != "deny"
    ensures Run(true, s0, tr) == Some(s) && InPc(s, c, Running) && s.denials == s1.denials && s.denyAll == s1.denyAll
    ensures tr0 <= tr && forall k :: |tr0| <= k < |tr| ==> Mover(tr[k]) == Some(c)
  {
    tr, s := GoCall(true, s0, tr0, s1, Enter(c), c);
    if s.calls[c].pc == Gated { tr, s := FreeRead(s0, tr, s, c); }
  }

  lemma FreeRead(s0: State, tr0: seq<Label>, s1: State, c: nat) returns (tr: seq<Label>, s: State)
    requires Run(true, s0, tr0) == Some(s1) && InPc(s1, c, Gated) && s1.noConfirm
    ensures Run(true, s0, tr) == Some(s) && tr == tr0 + [ReadNoConfirm(c)]
    ensures InPc(s, c, Running) && s.denials == s1.denials && s.denyAll == s1.denyAll
  {
    tr, s := GoCall(true, s0, tr0, s1, ReadNoConfirm(c), c);
  }

  lemma Executes(locked: bool, s0: State, tr0: seq<Label>, s1: State, c: nat) returns (tr: seq<Label>, s: State)
    requires Run(locked, s0, tr0) == Some(s1) && InPc(s1, c, Running)
    ensures Run(locked, s0, tr) == Some(s) && tr == tr0 + [Execute(c)]
    ensures InPc(s, c, Ran) && s.denials == s1.denials && s.denyAll == s1.denyAll
  {
    tr, s := GoCall(locked, s0, tr0, s1, Execute(c), c);
  }

  /** A call that the invoker let through before the denial landed is not held back either once `/approve` is on. */
  lemma LateDenialIsOverridden(req: Request) returns (tr: seq<Label>)
    requires req.trust != "deny"
    ensures var s := State(EMPTY_SLOT, {}, None, [], {req.tool}, false, {}, false, {});
            Run(true, s, tr).Some? && IsDenied(Run(true, s, tr).value, req.tool) && InPc(Run(true, s, tr).value, 0, Ran)
    ensures |tr| > 4 && tr[0] == Spawn(req) && tr[1] == Invoke(0, false) && tr[2] == DenyTool(req.tool) && tr[3] == ToggleApprove({})
  {
    var s0 := State(EMPTY_SLOT, {}, None, [], {req.tool}, false, {}, false, {});
    var s;
    tr, s := DeniedAfterInvoke(s0, req);
    tr, s := EntersFree(s0, tr, s, 0);
  }

  lemma DeniedAfterInvoke(s0: State, req: Request) returns (tr: seq<Label>, s: State)
    requires s0.calls == [] && s0.denials == {} && !s0.denyAll && !s0.noConfirm
    ensures Run(true, s0, tr) == Some(s) && InPc(s, 0, Invoked) && s.noConfirm && s.calls[0].req == req
    ensures IsDenied(s, req.tool)
    ensures |tr| == 4 && tr[0] == Spawn(req) && tr[1] == Invoke(0, false) && tr[2] == DenyTool(req.tool) && tr[3] == ToggleApprove({})
  {
    tr, s := CallSpawned(s0, req);
    tr, s := GoCall(true, s0, tr, s, Invoke(0, false), 0);
    tr, s := GoWorld(true, s0, tr, s, DenyTool(req.tool));
    tr, s := SwitchedOn(s0, tr, s);
  }

  /** Call `c` is about to deny its tool for good: the user said so, or there is no UI to ask. */
  predicate Refuses(s: State, c: nat) {
    c < |s.calls| &&
    (s.calls[c].pc in {Deciding(D), Deciding(F)} ||
     (s.calls[c].pc == Checked && !s.calls[c].req.hasUi && s.calls[c].req.tool !in s.approvals))
  }

  function RefusalOf(s: State, c: nat): Label
    requires Refuses(s, c)
  {
    if s.calls[c].pc == Checked then CheckApproved(c) else Decide(c)
  }

  lemma RefusalDenies(s: State, c: nat)
    requires Refuses(s, c)
    ensures var after := Next(true, s, RefusalOf(s, c));
            after.Some? && |after.value.calls| == |s.calls| && IsDenied(after.value, s.calls[c].req.tool)
  {
  }

  /** A client that disables the tool, or forbids all tools, is not asked about it again: while this stands, a later
      call of the tool on the same session state is refused by the invoker, and any other runs only if its wrapper
      takes it past the confirmation block. The same holds after a gated call found no UI. */
  lemma RefusalPins(s: State, c: nat, tr: seq<Label>, d: nat)
    requires Refuses(s, c) && d >= |s.calls| && Run(true, s, [RefusalOf(s, c)] + tr).Some?
    requires var after := Next(true, s, RefusalOf(s, c)); after.Some? ==> KeepsDenied(after.value, tr, s.calls[c].req.tool)
    ensures var after := Next(true, s, RefusalOf(s, c));
            after.Some? &&
            RunsOnlyFree(after.value, tr, Run(true, s, [RefusalOf(s, c)] + tr).value, d, s.calls[c].req.tool) &&
            NotInvoked(Run(true, s, [RefusalOf(s, c)] + tr).value, d, s.calls[c].req.tool)
  {
    var l := RefusalOf(s, c);
    RefusalDenies(s, c);
    var s1 := Next(true, s, l).value;
    RunOne(true, s, l);
    RunJoins(true, s, [l], tr);
    DenialIsAbsorbing(true, s1, tr, d, s.calls[c].req.tool);
    DeniedToolsNeverRun(true, s1, tr, d, s.calls[c].req.tool);
  }

  lemma ApprovedStep(locked: bool, s: State, l: Label, s': State, t: string)
    requires Next(locked, s, l) == Some(s') && t in s.approvals && l != Revoke(t) && !l.NewSession?
    requires !(l.ToggleApprove? && s.noConfirm)
    ensures t in s'.approvals
  {
    if Mover(l).Some? { MoveKeepsApprovals(locked, s, l, Mover(l).value, s.calls[Mover(l).value]); }
  }

  lemma MoveKeepsApprovals(locked: bool, s: State, l: Label, c: nat, k: Call)
    requires CallMove(locked, s, l, c, k).Some?
    ensures s.approvals <= CallMove(locked, s, l, c, k).value.approvals
  {
  }

  /** "Allow all" is remembered: as long as nobody takes it back, the tool stays approved. */
  lemma {:induction false} ApprovalIsRemembered(locked: bool, s: State, tr: seq<Label>, t: string)
    requires t in s.approvals && Run(locked, s, tr).Some? && forall k: nat :: !RevokedAt(s, tr, k, t)
    ensures t in Run(locked, s, tr).value.approvals
  {
    if tr != [] {
      var n := |tr| - 1;
      var pre, l := tr[..n], tr[n];
      forall k: nat ensures !RevokedAt(s, pre, k, t) {
        if k < n { assert pre[..k] == tr[..k] && !RevokedAt(s, tr, k, t); }
      }
      ApprovalIsRemembered(locked, s, pre, t);
      ReadingsAreExact(locked, s, pre);
      assert !RevokedAt(s, tr, n, t);
      ApprovedStep(locked, Run(locked, s, pre).value, l, Run(locked, s, tr).value, t);
    }
  }

  // ---------------------------------------------------------------------------------------------
  // Without the lock
  // ---------------------------------------------------------------------------------------------

  predicate Silent(l: Label) {
    !l.Resolve? && !l.ReadAction? && !l.Approve? && !l.Render? && !l.ToggleApprove? && !l.Register?
  }

  /** Two calls, each of a tool of its own that needs confirmation. */
  function Fresh(a: Request, b: Request): State {
    State(EMPTY_SLOT, {}, None, [], {a.tool, b.tool}, false, {}, false, {})
  }

  function BothAsking(a: Request, b: Request): State {
    Fresh(a, b).(calls := [Call(a, Asking, ""), Call(b, Asking, "")], lock := Some(1))
  }

  /** Up to the prompt each call gets without the client's doing: the second enters the block while the
      first is inside. */
  lemma BothReachThePrompt(a: Request, b: Request) returns (tr: seq<Label>)
    requires a.hasUi && b.hasUi && a.trust == "ask" && b.trust == "ask"
    ensures Run(false, Fresh(a, b), tr) == Some(BothAsking(a, b))
    ensures forall l :: l in tr ==> Silent(l)
    ensures Requests(tr) == [a, b]
  {
    var s;
    tr, s := BothSpawned(a, b);
    tr, s := EnterBlock(a, b, tr, s, 0);
    tr, s := EnterBlock(a, b, tr, s, 1);
    assert s.calls == [Call(a, Asking, ""), Call(b, Asking, "")];
  }

  lemma BothSpawned(a: Request, b: Request) returns (tr: seq<Label>, s: State)
    ensures Run(false, Fresh(a, b), tr) == Some(s)
    ensures s == Fresh(a, b).(calls := [Call(a, Start, ""), Call(b, Start, "")])
    ensures Requests(tr) == [a, b] && forall l :: l in tr ==> Silent(l)
  {
    var s1 := Fresh(a, b).(calls := [Call(a, Start, "")]);
    assert Fresh(a, b).calls + [Call(a, Start, "")] == [Call(a, Start, "")];
    RunOne(false, Fresh(a, b), Spawn(a));
    tr, s := GoWorld(false, Fresh(a, b), [Spawn(a)], s1, Spawn(b));
    Grow([], Spawn(a));
    Grow([Spawn(a)], Spawn(b));
    assert [] + [Spawn(a)] == [Spawn(a)];
  }

  lemma EnterBlock(a: Request, b: Request, tr: seq<Label>, s: State, c: nat)
    returns (tr': seq<Label>, s': State)
    requires Run(false, Fresh(a, b), tr) == Some(s) && InPc(s, c, Start)
    requires s.calls[c].req.trust == "ask" && s.calls[c].req.hasUi && s.calls[c].req.tool in s.gated
    requires !s.noConfirm && s.denials == {} && !s.denyAll && s.approvals == {}
    ensures Run(false, Fresh(a, b), tr') == Some(s')
    ensures s' == s.(lock := Some(c), calls := s.calls[c := s.calls[c].(pc := Asking)])
    ensures Requests(tr') == Requests(tr)
    ensures tr' == tr + [Invoke(c, false), Enter(c), ReadNoConfirm(c)] + [Acquire(c), CheckDenied(c), CheckApproved(c)]
  {
    tr', s' := WantsBlock(Fresh(a, b), tr, s, c);
    RequestsStay(tr, [Invoke(c, false), Enter(c), ReadNoConfirm(c)]);
    RequestsStay(tr', [Acquire(c), CheckDenied(c), CheckApproved(c)]);
    tr', s' := TakesBlock(Fresh(a, b), tr', s', c);
  }

  lemma WantsBlock(s0: State, tr: seq<Label>, s: State, c: nat) returns (tr': seq<Label>, s': State)
    requires Run(false, s0, tr) == Some(s) && InPc(s, c, Start)
    requires s.calls[c].req.trust == "ask" && s.calls[c].req.tool in s.gated
    requires !s.noConfirm && s.denials == {} && !s.denyAll
    ensures Run(false, s0, tr') == Some(s') && tr' == tr + [Invoke(c, false), Enter(c), ReadNoConfirm(c)]
    ensures s' == s.(calls := s.calls[c := s.calls[c].(pc := WantLock)])
  {
    tr', s' := GoCall(false, s0, tr, s, Invoke(c, false), c);
    tr', s' := GoCall(false, s0, tr', s', Enter(c), c);
    tr', s' := GoCall(false, s0, tr', s', ReadNoConfirm(c), c);
    Appended(tr, Invoke(c, false), Enter(c), ReadNoConfirm(c));
  }

  lemma TakesBlock(s0: State, tr: seq<Label>, s: State, c: nat) returns (tr': seq<Label>, s': State)
    requires Run(false, s0, tr) == Some(s) && InPc(s, c, WantLock) && s.calls[c].req.hasUi
    requires s.denials == {} && !s.denyAll && s.approvals == {}
    ensures Run(false, s0, tr') == Some(s') && tr' == tr + [Acquire(c), CheckDenied(c), CheckApproved(c)]
    ensures s' == s.(lock := Some(c), calls := s.calls[c := s.calls[c].(pc := Asking)])
  {
    tr', s' := GoCall(false, s0, tr, s, Acquire(c), c);
    tr', s' := GoCall(false, s0, tr', s', CheckDenied(c), c);
    tr', s' := GoCall(false, s0, tr', s', CheckApproved(c), c);
    Appended(tr, Acquire(c), CheckDenied(c), CheckApproved(c));
  }

  /** Without the lock a displaced reader takes the answer to the newer prompt: the client allows only
      prompt "q" of the second call, and the first call, which showed prompt "p", runs. */
  lemma WithoutLockAnswersLeak(a: Request, b: Request)
    requires a.hasUi && b.hasUi && a.trust == "ask" && b.trust == "ask"
    ensures exists tr: seq<Label> ::
              Run(false, Fresh(a, b), tr).Some? && InPc(Run(false, Fresh(a, b), tr).value, 0, Ran) &&
              !Authorised(Fresh(a, b), tr, 0)
  {
    var opening := BothReachThePrompt(a, b);
    var shown, s := BothShow(a, b, opening);
    var tr := FirstTakesSecondsAnswer(a, b, shown, s);
    NobodyAnsweredFirst(Fresh(a, b), opening, tr, a, b);
  }

  lemma BothShow(a: Request, b: Request, opening: seq<Label>) returns (tr: seq<Label>, s: State)
    requires Run(false, Fresh(a, b), opening) == Some(BothAsking(a, b))
    ensures Run(false, Fresh(a, b), tr) == Some(s)
    ensures tr == opening + [Render(0, "p"), FetchEvent(0), Render(1, "q"), Resolve("q", "allow")]
    ensures InPc(s, 0, Waiting(0)) && s.slot.events == [true, true] && s.slot.action == Y
  {
    tr, s := FirstShows(Fresh(a, b), opening, BothAsking(a, b));
    tr, s := SecondShows(Fresh(a, b), tr, s);
  }

  lemma FirstShows(s0: State, opening: seq<Label>, s1: State) returns (tr: seq<Label>, s: State)
    requires Run(false, s0, opening) == Some(s1)
    requires InPc(s1, 0, Asking) && InPc(s1, 1, Asking) && s1.usedIds == {} && s1.slot == EMPTY_SLOT
    ensures Run(false, s0, tr) == Some(s) && tr == opening + [Render(0, "p"), FetchEvent(0)]
    ensures InPc(s, 0, Waiting(0)) && InPc(s, 1, Asking) && s.usedIds == {"p"}
    ensures s.slot.events == [false] && s.slot.pending == Some(0)
  {
    tr, s := GoCall(false, s0, opening, s1, Render(0, "p"), 0);
    tr, s := GoCall(false, s0, tr, s, FetchEvent(0), 0);
  }

  lemma SecondShows(s0: State, shown: seq<Label>, s1: State) returns (tr: seq<Label>, s: State)
    requires Run(false, s0, shown) == Some(s1)
    requires InPc(s1, 0, Waiting(0)) && InPc(s1, 1, Asking) && s1.usedIds == {"p"}
    requires s1.slot.events == [false] && s1.slot.pending == Some(0)
    ensures Run(false, s0, tr) == Some(s) && tr == shown + [Render(1, "q"), Resolve("q", "allow")]
    ensures InPc(s, 0, Waiting(0)) && s.slot.events == [true, true] && s.slot.action == Y
  {
    tr, s := GoCall(false, s0, shown, s1, Render(1, "q"), 1);
    tr, s := GoWorld(false, s0, tr, s, Resolve("q", "allow"));
  }

  lemma FirstTakesSecondsAnswer(a: Request, b: Request, shown: seq<Label>, s1: State)
    returns (tr: seq<Label>)
    requires Run(false, Fresh(a, b), shown) == Some(s1)
    requires InPc(s1, 0, Waiting(0)) && s1.slot.events == [true, true] && s1.slot.action == Y
    ensures Run(false, Fresh(a, b), tr).Some? && InPc(Run(false, Fresh(a, b), tr).value, 0, Ran)
    ensures tr == shown + [Wake(0), ReadAction(0)] + [Decide(0), Execute(0)]
  {
    var s;
    tr, s := ReadsAnswer(Fresh(a, b), shown, s1);
    tr, s := ApprovedRuns(Fresh(a, b), tr, s);
  }

  lemma ReadsAnswer(s0: State, shown: seq<Label>, s1: State) returns (tr: seq<Label>, s: State)
    requires Run(false, s0, shown) == Some(s1)
    requires InPc(s1, 0, Waiting(0)) && s1.slot.events == [true, true] && s1.slot.action == Y
    ensures Run(false, s0, tr) == Some(s) && InPc(s, 0, Deciding(Y)) && tr == shown + [Wake(0), ReadAction(0)]
  {
    tr, s := GoCall(false, s0, shown, s1, Wake(0), 0);
    tr, s := GoCall(false, s0, tr, s, ReadAction(0), 0);
    Appended(shown, Wake(0), ReadAction(0), Decide(0));
  }

  lemma ApprovedRuns(s0: State, read: seq<Label>, s1: State) returns (tr: seq<Label>, s: State)
    requires Run(false, s0, read) == Some(s1) && InPc(s1, 0, Deciding(Y))
    ensures Run(false, s0, tr) == Some(s) && InPc(s, 0, Ran) && tr == read + [Decide(0), Execute(0)]
  {
    tr, s := GoCall(false, s0, read, s1, Decide(0), 0);
    tr, s := Executes(false, s0, tr, s, 0);
    Appended(read, Decide(0), Execute(0), Cancel);
  }

  lemma NobodyAnsweredFirst(s0: State, opening: seq<Label>, tr: seq<Label>, a: Request, b: Request)
    requires s0 == Fresh(a, b) && forall l :: l in opening ==> Silent(l)
    requires a.trust == "ask" && Requests(opening) == [a, b]
    requires tr == opening +
      [Render(0, "p"), FetchEvent(0), Render(1, "q"), Resolve("q", "allow")] +
      [Wake(0), ReadAction(0)] + [Decide(0), Execute(0)]
    ensures !Authorised(s0, tr, 0)
  {
    forall c: nat, choice: Choice | choice in {Y, A} ensures !Answered(tr, c, choice) {
      if k: nat, id: string :| AnsweredAt(tr, c, choice, k, id) {
        var i, j := AnswerFollowsPrompt(tr, c, choice, k, id);
        assert tr[j] == tr[..k][j];
        TheLeakingRun(opening, tr, i, j, k);
      }
    }
    forall l | l in tr ensures !l.Approve? && !l.ToggleApprove? && !l.Register? { assert l in opening || l !in opening; }
    forall k: nat | k < |tr| ensures !EnteredFreeAt(s0, tr, 0, a, k) && !FoundApprovedAt(s0, tr, 0, a.tool, k) {
      StaysGated(s0, tr[..k], a.tool);
      NeverGranted(s0, tr, k, a.tool);
    }
    assert tr == opening + tr[|opening|..];
    RequestsStay(opening, tr[|opening|..]);
  }

  lemma NeverGranted(s0: State, tr: seq<Label>, n: nat, t: string)
    requires n <= |tr| && s0.approvals == {} && forall c: nat :: !Answered(tr, c, A)
    requires forall l :: l in tr ==> !l.Approve? && !l.ToggleApprove?
    ensures !Granted(s0, tr[..n], t)
  {
    forall k: nat ensures !GrantedAt(s0, tr[..n], k, t) {
      if k < n {
        assert tr[..n][k] == tr[k] && tr[k] in tr && tr[..n][..k] == tr[..k];
        if tr[k].Decide? && Answered(tr[..k], tr[k].c, A) { AnsweredInPrefix(tr, k, tr[k].c); }
      }
    }
  }

  lemma AnsweredInPrefix(tr: seq<Label>, n: nat, c: nat)
    requires n <= |tr| && Answered(tr[..n], c, A)
    ensures Answered(tr, c, A)
  {
    var k: nat, id: string :| AnsweredAt(tr[..n], c, A, k, id);
    assert tr[..n][..k] == tr[..k];
    assert AnsweredAt(tr, c, A, k, id);
  }

  /** In that run the only reader is call 0, which rendered only "p", and the only answer names "q". */
  lemma TheLeakingRun(opening: seq<Label>, tr: seq<Label>, i: nat, j: nat, k: nat)
    requires forall l :: l in opening ==> Silent(l)
    requires tr == opening +
      [Render(0, "p"), FetchEvent(0), Render(1, "q"), Resolve("q", "allow")] +
      [Wake(0), ReadAction(0)] + [Decide(0), Execute(0)]
    requires i < |tr| && j < |tr| && k < |tr|
    ensures tr[k].ReadAction? ==> tr[k].c == 0
    ensures tr[i].Render? && tr[i].c == 0 ==> tr[i].id == "p"
    ensures tr[j].Resolve? ==> tr[j].id == "q"
  {
    assert i < |opening| ==> tr[i] in opening;
    assert j < |opening| ==> tr[j] in opening;
    assert k < |opening| ==> tr[k] in opening;
  }

  lemma {:induction false} RequestsStay(tr: seq<Label>, more: seq<Label>)
    requires forall l :: l in more ==> !l.Spawn?
    ensures Requests(tr + more) == Requests(tr)
  {
    if more == [] {
      assert tr + more == tr;
    } else {
      var last := more[|more| - 1];
      RequestsStay(tr, more[..|more| - 1]);
      Grow(tr + more[..|more| - 1], last);
      assert tr + more == tr + more[..|more| - 1] + [last];
    }
  }
}
