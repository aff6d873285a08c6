/** Which calls run, are refused, are aborted and are asked about, told from the labels of a run alone. */
module ConfirmationOutcome {
  import opened Options
  import opened ConfirmationUi
  import opened ConfirmationProtocol
  import opened ConfirmationSafety

  // ---------------------------------------------------------------------------------------------
  // Reading a run
  // ---------------------------------------------------------------------------------------------

  /** Whether a decision of a call of tool `t`, taken now, follows the answer `choice`. */
  ghost predicate DecidesNow(tr: seq<Label>, l: Label, choice: Choice) {
    l.Decide? && l.c < |Requests(tr)| && Answered(tr, l.c, choice)
  }

  /** A call of `t` without a UI finds the tool unapproved. */
  ghost predicate FindsNoUi(s0: State, tr: seq<Label>, l: Label, t: string) {
    l.CheckApproved? && l.c < |Requests(tr)| && Requests(tr)[l.c].tool == t && !Requests(tr)[l.c].hasUi &&
    !Granted(s0, tr, t)
  }

  /** Whether `t` is denied by name after a run: by the operator, by a client that disabled it, or because nobody
      could be asked. */
  ghost predicate DisabledAfter(s0: State, tr: seq<Label>, t: string) {
    if tr == [] then t in s0.denials
    else
      var pre, l := tr[..|tr| - 1], tr[|tr| - 1];
      if l == DenyTool(t) || (DecidesNow(pre, l, D) && Requests(pre)[l.c].tool == t) || FindsNoUi(s0, pre, l, t) then true
      else l != AllowTool(t) && l != NewSession && DisabledAfter(s0, pre, t)
  }

  /** Whether all tools are denied after a run: a client forbade them, and no new prompt, new session or switching
      off of `/approve` came since. */
  ghost predicate ForbiddenAfter(s0: State, tr: seq<Label>) {
    if tr == [] then s0.denyAll
    else
      var pre, l := tr[..|tr| - 1], tr[|tr| - 1];
      if DecidesNow(pre, l, F) then true
      else
        l != NewPrompt && l != NewSession && !(l.ToggleApprove? && NoConfirmAfter(s0.noConfirm, pre)) &&
        ForbiddenAfter(s0, pre)
  }

  ghost predicate DeniedAfter(s0: State, tr: seq<Label>, t: string) {
    ForbiddenAfter(s0, tr) || DisabledAfter(s0, tr, t)
  }

  /** Label `l`, after the run `tr`, refuses call `c`: the invoker or the wrapper finds the tool denied, its trust is
      "deny", there is no UI to ask, or the answer was no. */
  ghost predicate RefusesNow(s0: State, tr: seq<Label>, l: Label, c: nat, req: Request) {
    match l
    case Invoke(d, refused) => d == c && refused
    case Enter(d) => d == c && req.trust == "deny"
    case CheckDenied(d) => d == c && DeniedAfter(s0, tr, req.tool)
    case CheckApproved(d) => d == c && !req.hasUi && !Granted(s0, tr, req.tool)
    case Decide(d) => d == c && (Answered(tr, c, N) || Answered(tr, c, D) || Answered(tr, c, F))
    case _ => false
  }

  ghost predicate Refused(s0: State, tr: seq<Label>, c: nat, req: Request) {
    exists k: nat :: k < |tr| && RefusesNow(s0, tr[..k], tr[k], c, req)
  }

  /** Call `c` decided on the answer "cancel". */
  ghost predicate CalledOff(tr: seq<Label>, c: nat) {
    exists k: nat :: k < |tr| && tr[k] == Decide(c) && Answered(tr[..k], c, C)
  }

  /** Call `c` needed confirmation when its wrapper looked. */
  ghost predicate FoundGated(s0: State, tr: seq<Label>, c: nat, req: Request) {
    exists k: nat :: k < |tr| && tr[k] == Enter(c) && req.trust !in {"deny", "always"} && req.tool in GatedAfter(s0.gated, tr[..k])
  }

  ghost predicate FoundApproveOff(s0: State, tr: seq<Label>, c: nat) {
    exists k: nat :: k < |tr| && tr[k] == ReadNoConfirm(c) && !NoConfirmAfter(s0.noConfirm, tr[..k])
  }

  ghost predicate FoundNotDenied(s0: State, tr: seq<Label>, c: nat, t: string) {
    exists k: nat :: k < |tr| && tr[k] == CheckDenied(c) && !DeniedAfter(s0, tr[..k], t)
  }

  ghost predicate FoundNotApproved(s0: State, tr: seq<Label>, c: nat, t: string) {
    exists k: nat :: k < |tr| && tr[k] == CheckApproved(c) && !Granted(s0, tr[..k], t)
  }

  // ---------------------------------------------------------------------------------------------
  // One more label
  // ---------------------------------------------------------------------------------------------

  lemma RefusedGrows(s0: State, tr: seq<Label>, l: Label, c: nat, req: Request)
    ensures Refused(s0, tr + [l], c, req) <==> Refused(s0, tr, c, req) || RefusesNow(s0, tr, l, c, req)
  {
    var more := tr + [l];
    Grow(tr, l);
    if k: nat :| k < |tr| && RefusesNow(s0, tr[..k], tr[k], c, req) {
      assert more[..k] == tr[..k] && more[k] == tr[k];
    }
    if RefusesNow(s0, tr, l, c, req) { assert more[..|tr|] == tr; }
    if k: nat :| k < |more| && RefusesNow(s0, more[..k], more[k], c, req) {
      assert more[..k] == tr[..k] && (k < |tr| ==> more[k] == tr[k]);
    }
  }

  lemma CalledOffGrows(tr: seq<Label>, l: Label, c: nat)
    ensures CalledOff(tr + [l], c) <==> CalledOff(tr, c) || (l == Decide(c) && Answered(tr, c, C))
  {
    var more := tr + [l];
    Grow(tr, l);
    if k: nat :| k < |tr| && tr[k] == Decide(c) && Answered(tr[..k], c, C) {
      assert more[..k] == tr[..k] && more[k] == tr[k];
    }
    if l == Decide(c) && Answered(tr, c, C) { assert more[..|tr|] == tr; }
    if k: nat :| k < |more| && more[k] == Decide(c) && Answered(more[..k], c, C) {
      assert more[..k] == tr[..k] && (k < |tr| ==> more[k] == tr[k]);
    }
  }

  lemma FoundGrows(s0: State, tr: seq<Label>, l: Label, c: nat, t: string)
    ensures FoundApproved(s0, tr + [l], c, t) <==> FoundApproved(s0, tr, c, t) || (l == CheckApproved(c) && Granted(s0, tr, t))
  {
    var more := tr + [l];
    Grow(tr, l);
    if k: nat :| FoundApprovedAt(s0, tr, c, t, k) {
      assert more[..k] == tr[..k];
      assert FoundApprovedAt(s0, more, c, t, k);
    }
    if l == CheckApproved(c) && Granted(s0, tr, t) { assert FoundApprovedAt(s0, more, c, t, |tr|); }
    if k: nat :| FoundApprovedAt(s0, more, c, t, k) {
      assert more[..k] == tr[..k];
      assert k < |tr| ==> FoundApprovedAt(s0, tr, c, t, k);
    }
  }

  lemma AnsweredGrowsBy(tr: seq<Label>, l: Label, c: nat, choice: Choice)
    ensures Answered(tr + [l], c, choice) <==>
            Answered(tr, c, choice) || (l == ReadAction(c) && exists id :: Render(c, id) in tr && LastChoice(tr, id) == choice)
  {
    var more := tr + [l];
    Grow(tr, l);
    if Answered(tr, c, choice) { AnsweredGrows(tr, l, c, choice); }
    if id :| l == ReadAction(c) && Render(c, id) in tr && LastChoice(tr, id) == choice {
      assert AnsweredAt(more, c, choice, |tr|, id);
    }
    if k: nat, id :| AnsweredAt(more, c, choice, k, id) {
      assert more[..k] == tr[..k];
      assert k < |tr| ==> AnsweredAt(tr, c, choice, k, id);
    }
  }

  lemma GrantedGrowsBy(s0: State, tr: seq<Label>, l: Label, t: string)
    ensures Granted(s0, tr + [l], t) <==>
            GrantedAt(s0, tr + [l], |tr|, t) || (Granted(s0, tr, t) && !RevokedAt(s0, tr + [l], |tr|, t))
  {
    var more := tr + [l];
    Grow(tr, l);
    if GrantedAt(s0, more, |tr|, t) { GrantedNow(s0, tr, l, t); }
    if Granted(s0, tr, t) && !RevokedAt(s0, more, |tr|, t) { GrantedGrows(s0, tr, l, t); }
    if Granted(s0, more, t) && !GrantedAt(s0, more, |tr|, t) {
      forall i: nat | RevokedAt(s0, tr, i, t) ensures RevokedAt(s0, more, i, t) {
        assert more[..i] == tr[..i];
      }
      if k: nat :| GrantedAt(s0, more, k, t) && forall i: nat :: k < i ==> !RevokedAt(s0, more, i, t) {
        assert k < |tr| && more[..k] == tr[..k];
        assert GrantedAt(s0, tr, k, t);
      }
    }
  }

  lemma StagesGrow(s0: State, tr: seq<Label>, l: Label, c: nat, req: Request)
    ensures FoundGated(s0, tr, c, req) ==> FoundGated(s0, tr + [l], c, req)
    ensures FoundApproveOff(s0, tr, c) ==> FoundApproveOff(s0, tr + [l], c)
    ensures FoundNotDenied(s0, tr, c, req.tool) ==> FoundNotDenied(s0, tr + [l], c, req.tool)
    ensures FoundNotApproved(s0, tr, c, req.tool) ==> FoundNotApproved(s0, tr + [l], c, req.tool)
  {
    var more := tr + [l];
    Grow(tr, l);
    assert forall k: nat :: k < |tr| ==> more[k] == tr[k];
    if k: nat :| k < |tr| && tr[k] == Enter(c) && req.trust !in {"deny", "always"} && req.tool in GatedAfter(s0.gated, tr[..k]) {
      assert more[k] == tr[k] && more[..k] == tr[..k];
    }
    if k: nat :| k < |tr| && tr[k] == ReadNoConfirm(c) && !NoConfirmAfter(s0.noConfirm, tr[..k]) {
      assert more[k] == tr[k] && more[..k] == tr[..k];
    }
    if k: nat :| k < |tr| && tr[k] == CheckDenied(c) && !DeniedAfter(s0, tr[..k], req.tool) {
      assert more[k] == tr[k] && more[..k] == tr[..k];
    }
    if k: nat :| k < |tr| && tr[k] == CheckApproved(c) && !Granted(s0, tr[..k], req.tool) {
      assert more[k] == tr[k] && more[..k] == tr[..k];
    }
  }

  lemma StagesNow(s0: State, tr: seq<Label>, l: Label, c: nat, req: Request)
    ensures l == Enter(c) && req.trust !in {"deny", "always"} && req.tool in GatedAfter(s0.gated, tr) ==> FoundGated(s0, tr + [l], c, req)
    ensures l == ReadNoConfirm(c) && !NoConfirmAfter(s0.noConfirm, tr) ==> FoundApproveOff(s0, tr + [l], c)
    ensures l == CheckDenied(c) && !DeniedAfter(s0, tr, req.tool) ==> FoundNotDenied(s0, tr + [l], c, req.tool)
    ensures l == CheckApproved(c) && !Granted(s0, tr, req.tool) ==> FoundNotApproved(s0, tr + [l], c, req.tool)
  {
    var more, n := tr + [l], |tr|;
    assert more[..n] == tr && more[n] == l;
  }

  lemma DenialsGrow(s0: State, tr: seq<Label>, l: Label, t: string)
    ensures DisabledAfter(s0, tr + [l], t) <==>
            l == DenyTool(t) || (DecidesNow(tr, l, D) && Requests(tr)[l.c].tool == t) || FindsNoUi(s0, tr, l, t) ||
            (l != AllowTool(t) && l != NewSession && DisabledAfter(s0, tr, t))
    ensures ForbiddenAfter(s0, tr + [l]) <==>
            DecidesNow(tr, l, F) ||
            (l != NewPrompt && l != NewSession && !(l.ToggleApprove? && NoConfirmAfter(s0.noConfirm, tr)) && ForbiddenAfter(s0, tr))
  {
    Grow(tr, l);
    assert (tr + [l])[..|tr + [l]| - 1] == tr;
  }

  // ---------------------------------------------------------------------------------------------
  // The invariant
  // ---------------------------------------------------------------------------------------------

  /** Where an answered call can be. */
  predicate Follows(pc: Pc, choice: Choice) {
    pc == Deciding(choice) || (pc in {Running, Ran} && choice in {Y, A}) ||
    (pc == Denied && choice in {N, D, F}) || (pc == Aborted && choice == C)
  }

  predicate BeforeRender(pc: Pc) {
    pc.Start? || pc.Invoked? || pc.Gated? || pc.WantLock? || pc.Holding? || pc.Checked? || pc.Asking?
  }

  predicate WasShown(pc: Pc) { Prompted(pc) || pc.Deciding? }

  ghost predicate ShowsItsOwn(tr: seq<Label>, k: Call, c: nat) {
    forall id :: Render(c, id) in tr ==> !BeforeRender(k.pc) && id == k.promptId
  }

  ghost predicate FollowsAnswers(tr: seq<Label>, k: Call, c: nat) {
    forall choice :: Answered(tr, c, choice) ==> Follows(k.pc, choice)
  }

  ghost predicate RunsUnasked(s0: State, tr: seq<Label>, k: Call, c: nat) {
    ((k.req.trust != "deny" && EnteredFree(s0, tr, c, k.req)) || FoundApproved(s0, tr, c, k.req.tool)) ==>
      k.pc in {Running, Ran}
  }

  /** What the labels of call `c` say about where it is. */
  ghost predicate Fate(s0: State, tr: seq<Label>, k: Call, c: nat) {
    ShowsItsOwn(tr, k, c) && ShownIfNeeded(s0, tr, k, c) && FollowsAnswers(tr, k, c) && RunsUnasked(s0, tr, k, c) &&
    (Refused(s0, tr, c, k.req) <==> k.pc == Denied) && (CalledOff(tr, c) <==> k.pc == Aborted)
  }

  /** What call `c` has gone through on its way to the prompt. */
  ghost predicate Way(s0: State, tr: seq<Label>, k: Call, c: nat) {
    (k.pc.Gated? || k.pc.WantLock? || Inside(k.pc) ==> FoundGated(s0, tr, c, k.req)) &&
    (k.pc.WantLock? || Inside(k.pc) ==> FoundApproveOff(s0, tr, c)) &&
    (Inside(k.pc) && !k.pc.Holding? ==> FoundNotDenied(s0, tr, c, k.req.tool)) &&
    (k.pc.Asking? || WasShown(k.pc) ==> FoundNotApproved(s0, tr, c, k.req.tool) && k.req.hasUi)
  }

  ghost predicate ShownIfNeeded(s0: State, tr: seq<Label>, k: Call, c: nat) {
    forall id :: Render(c, id) in tr ==> Needed(s0, tr, c, k.req)
  }

  /** The tool needed confirmation, `/approve` was off, the tool was neither denied nor approved, and there was
      somebody to ask. */
  ghost predicate Needed(s0: State, tr: seq<Label>, c: nat, req: Request) {
    FoundGated(s0, tr, c, req) && FoundApproveOff(s0, tr, c) && FoundNotDenied(s0, tr, c, req.tool) &&
    FoundNotApproved(s0, tr, c, req.tool) && req.hasUi
  }

  ghost predicate Exact(s0: State, tr: seq<Label>, s: State) {
    (forall t :: t in s.approvals <==> Granted(s0, tr, t)) &&
    (forall t :: t in s.denials <==> DisabledAfter(s0, tr, t)) && (s.denyAll <==> ForbiddenAfter(s0, tr))
  }

  /** What a move of call `c` goes by, read from the run. */
  ghost predicate Known(s0: State, tr: seq<Label>, s: State, k: Call, c: nat) {
    s.gated == GatedAfter(s0.gated, tr) && s.noConfirm == NoConfirmAfter(s0.noConfirm, tr) &&
    (k.req.tool in s.approvals <==> Granted(s0, tr, k.req.tool)) &&
    (IsDenied(s, k.req.tool) <==> DeniedAfter(s0, tr, k.req.tool)) &&
    (k.pc.Deciding? ==> forall choice :: Answered(tr, c, choice) <==> choice == k.pc.choice) &&
    (k.pc.Reading? ==> s.slot.action == LastChoice(tr, k.promptId))
  }

  ghost predicate MoversExist(tr: seq<Label>, s: State) {
    forall l :: l in tr && Mover(l).Some? ==> Mover(l).value < |s.calls|
  }

  ghost predicate Told(s0: State, tr: seq<Label>, s: State) {
    Exact(s0, tr, s) && MoversExist(tr, s) &&
    forall c: nat :: c < |s.calls| ==> Fate(s0, tr, s.calls[c], c) && Way(s0, tr, s.calls[c], c)
  }

  // ---------------------------------------------------------------------------------------------
  // Every step keeps it
  // ---------------------------------------------------------------------------------------------

  lemma ApprovalsMove(s: State, l: Label, s': State, t: string)
    requires Next(true, s, l) == Some(s')
    ensures t in s'.approvals <==>
            l == Approve(t) || (l.ToggleApprove? && !s.noConfirm && t in l.listed && t in s.gated) ||
            (l.Decide? && s.calls[l.c].pc == Deciding(A) && s.calls[l.c].req.tool == t) ||
            (t in s.approvals && l != Revoke(t) && l != NewSession && !(l.ToggleApprove? && s.noConfirm))
  {
    if Mover(l).Some? { CallApproves(s, l, Mover(l).value, s.calls[Mover(l).value]); }
  }

  lemma CallApproves(s: State, l: Label, c: nat, k: Call)
    requires CallMove(true, s, l, c, k).Some?
    ensures CallMove(true, s, l, c, k).value.approvals ==
            s.approvals + if l.Decide? && k.pc == Deciding(A) then {k.req.tool} else {}
  {
  }

  lemma DenialsMove(s: State, l: Label, s': State, t: string)
    requires Next(true, s, l) == Some(s')
    ensures t in s'.denials <==>
            l == DenyTool(t) || (l.Decide? && s.calls[l.c].pc == Deciding(D) && s.calls[l.c].req.tool == t) ||
            (l.CheckApproved? && s.calls[l.c].req.tool == t && !s.calls[l.c].req.hasUi && t !in s.approvals) ||
            (t in s.denials && l != AllowTool(t) && l != NewSession)
  {
  }

  lemma DenyAllMove(s: State, l: Label, s': State)
    requires Next(true, s, l) == Some(s')
    ensures s'.denyAll <==>
            (l.Decide? && s.calls[l.c].pc == Deciding(F)) ||
            (s.denyAll && l != NewPrompt && l != NewSession && !(l.ToggleApprove? && s.noConfirm))
  {
  }

  lemma Knows(s0: State, tr: seq<Label>, s: State, c: nat)
    requires Inv(s0, tr, s) && Told(s0, tr, s) && c < |s.calls|
    ensures Known(s0, tr, s, s.calls[c], c) && s.calls[c].req == Requests(tr)[c]
  {
    var k := s.calls[c];
    assert CallInv(s0, tr, s, c);
    assert FollowsAnswers(tr, k, c);
  }

  /** What a session change goes by, read from the run. */
  ghost predicate LabelKnown(s0: State, tr: seq<Label>, s: State, l: Label) {
    s.gated == GatedAfter(s0.gated, tr) && s.noConfirm == NoConfirmAfter(s0.noConfirm, tr) &&
    (Mover(l).Some? ==>
       var c := Mover(l).value;
       c < |s.calls| && c < |Requests(tr)| && s.calls[c].req == Requests(tr)[c] &&
       (s.calls[c].req.tool in s.approvals <==> Granted(s0, tr, s.calls[c].req.tool)) &&
       (l.Decide? ==> forall choice :: DecidesNow(tr, l, choice) <==> s.calls[c].pc == Deciding(choice)))
  }

  lemma KnowsLabel(s0: State, tr: seq<Label>, s: State, l: Label)
    requires Inv(s0, tr, s) && Told(s0, tr, s) && Next(true, s, l).Some?
    ensures LabelKnown(s0, tr, s, l)
  {
    if Mover(l).Some? { Knows(s0, tr, s, Mover(l).value); }
  }

  lemma StepApprovals(s0: State, tr: seq<Label>, s: State, l: Label, s': State, t: string)
    requires LabelKnown(s0, tr, s, l) && Next(true, s, l) == Some(s') && (t in s.approvals <==> Granted(s0, tr, t))
    ensures t in s'.approvals <==> Granted(s0, tr + [l], t)
  {
    GrantedGrowsBy(s0, tr, l, t);
    ApprovalsMove(s, l, s', t);
    GrantsNow(s0, tr, l, t);
  }

  lemma GrantsNow(s0: State, tr: seq<Label>, l: Label, t: string)
    ensures GrantedAt(s0, tr + [l], |tr|, t) <==>
            l == Approve(t) || (DecidesNow(tr, l, A) && Requests(tr)[l.c].tool == t) ||
            (l.ToggleApprove? && !NoConfirmAfter(s0.noConfirm, tr) && t in l.listed && t in GatedAfter(s0.gated, tr))
    ensures RevokedAt(s0, tr + [l], |tr|, t) <==>
            l == Revoke(t) || l == NewSession || (l.ToggleApprove? && NoConfirmAfter(s0.noConfirm, tr))
  {
    Grow(tr, l);
  }

  lemma StepDenials(s0: State, tr: seq<Label>, s: State, l: Label, s': State, t: string)
    requires LabelKnown(s0, tr, s, l) && Next(true, s, l) == Some(s')
    requires (t in s.denials <==> DisabledAfter(s0, tr, t)) && (s.denyAll <==> ForbiddenAfter(s0, tr))
    ensures t in s'.denials <==> DisabledAfter(s0, tr + [l], t)
    ensures s'.denyAll <==> ForbiddenAfter(s0, tr + [l])
  {
    DenialsGrow(s0, tr, l, t);
    DenialsMove(s, l, s', t);
    DenyAllMove(s, l, s');
  }

  lemma StepExact(s0: State, tr: seq<Label>, s: State, l: Label, s': State)
    requires LabelKnown(s0, tr, s, l) && Next(true, s, l) == Some(s') && Exact(s0, tr, s)
    ensures Exact(s0, tr + [l], s')
  {
    forall t ensures t in s'.approvals <==> Granted(s0, tr + [l], t) { StepApprovals(s0, tr, s, l, s', t); }
    forall t ensures t in s'.denials <==> DisabledAfter(s0, tr + [l], t) { StepDenials(s0, tr, s, l, s', t); }
    StepDenials(s0, tr, s, l, s', "");
  }

  /** The labels of the others say nothing about call `c`. */
  lemma OthersLabels(s0: State, tr: seq<Label>, l: Label, k: Call, c: nat)
    requires Mover(l) != Some(c) && Fate(s0, tr, k, c) && Way(s0, tr, k, c)
    ensures Fate(s0, tr + [l], k, c) && Way(s0, tr + [l], k, c)
  {
    RefusedGrows(s0, tr, l, c, k.req);
    CalledOffGrows(tr, l, c);
    FoundGrows(s0, tr, l, c, k.req.tool);
    FreeGrows(s0, tr, l, c, k.req);
    StagesGrow(s0, tr, l, c, k.req);
    forall choice ensures Answered(tr + [l], c, choice) <==> Answered(tr, c, choice) { AnsweredGrowsBy(tr, l, c, choice); }
    forall id ensures Render(c, id) in tr + [l] <==> Render(c, id) in tr {
      assert Render(c, id) in tr + [l] <==> Render(c, id) in tr || l == Render(c, id);
    }
  }

  lemma NewCall(s0: State, tr: seq<Label>, req: Request, c: nat)
    requires forall l :: l in tr ==> Mover(l) != Some(c)
    ensures Fate(s0, tr, Call(req, Start, ""), c) && Way(s0, tr, Call(req, Start, ""), c)
  {
    assert forall id :: Mover(Render(c, id)) == Some(c);
    assert forall k: nat :: k < |tr| ==> tr[k] in tr;
  }

  lemma StepMovers(s: State, tr: seq<Label>, l: Label, s': State)
    requires MoversExist(tr, s) && Next(true, s, l) == Some(s')
    ensures MoversExist(tr + [l], s')
  {
    CallsStay(true, s, l, s');
    assert forall m :: m in tr + [l] ==> m in tr || m == l;
  }

  lemma MoveShows(s: State, tr: seq<Label>, l: Label, c: nat, k: Call, m: Move)
    requires Mover(l) == Some(c) && CallMove(true, s, l, c, k) == Some(m) && ShowsItsOwn(tr, k, c)
    ensures ShowsItsOwn(tr + [l], k.(pc := m.pc, promptId := m.promptId), c)
  {
    assert forall id :: Render(c, id) in tr + [l] <==> Render(c, id) in tr || l == Render(c, id);
  }

  lemma MoveFollows(s0: State, s: State, tr: seq<Label>, l: Label, c: nat, k: Call, m: Move)
    requires Mover(l) == Some(c) && CallMove(true, s, l, c, k) == Some(m) && Known(s0, tr, s, k, c)
    requires ShowsItsOwn(tr, k, c) && FollowsAnswers(tr, k, c)
    ensures FollowsAnswers(tr + [l], k.(pc := m.pc, promptId := m.promptId), c)
  {
    forall choice | Answered(tr + [l], c, choice) ensures Follows(m.pc, choice) {
      AnsweredGrowsBy(tr, l, c, choice);
      if l.Decide? { DecidedExactly(s, k, k.pc.choice); }
    }
  }

  lemma MoveRuns(s0: State, s: State, tr: seq<Label>, l: Label, c: nat, k: Call, m: Move)
    requires Mover(l) == Some(c) && CallMove(true, s, l, c, k) == Some(m) && Known(s0, tr, s, k, c)
    requires RunsUnasked(s0, tr, k, c)
    ensures RunsUnasked(s0, tr + [l], k.(pc := m.pc, promptId := m.promptId), c)
  {
    FoundGrows(s0, tr, l, c, k.req.tool);
    FreeGrows(s0, tr, l, c, k.req);
  }

  lemma MoveRefuses(s0: State, s: State, tr: seq<Label>, l: Label, c: nat, k: Call, m: Move)
    requires Mover(l) == Some(c) && CallMove(true, s, l, c, k) == Some(m) && Known(s0, tr, s, k, c)
    requires (Refused(s0, tr, c, k.req) <==> k.pc == Denied) && (CalledOff(tr, c) <==> k.pc == Aborted)
    ensures (Refused(s0, tr + [l], c, k.req) <==> m.pc == Denied) && (CalledOff(tr + [l], c) <==> m.pc == Aborted)
  {
    RefusedGrows(s0, tr, l, c, k.req);
    CalledOffGrows(tr, l, c);
    if l.Decide? { DecidedExactly(s, k, k.pc.choice); }
  }

  /** How a call gets from one stage to the next. */
  predicate ComesFrom(s: State, l: Label, c: nat, k: Call, pc: Pc) {
    (pc.Gated? || pc.WantLock? || Inside(pc) ==>
       k.pc.Gated? || k.pc.WantLock? || Inside(k.pc) || (l == Enter(c) && k.req.trust !in {"deny", "always"} && k.req.tool in s.gated)) &&
    (pc.WantLock? || Inside(pc) ==> k.pc.WantLock? || Inside(k.pc) || (l == ReadNoConfirm(c) && !s.noConfirm)) &&
    (Inside(pc) && !pc.Holding? ==> (Inside(k.pc) && !k.pc.Holding?) || (l == CheckDenied(c) && !IsDenied(s, k.req.tool))) &&
    (pc.Asking? || WasShown(pc) ==>
       k.pc.Asking? || WasShown(k.pc) || (l == CheckApproved(c) && k.req.tool !in s.approvals && k.req.hasUi))
  }

  lemma MoveComesFrom(s: State, l: Label, c: nat, k: Call, m: Move)
    requires Mover(l) == Some(c) && CallMove(true, s, l, c, k) == Some(m)
    ensures ComesFrom(s, l, c, k, m.pc)
  {
  }

  lemma StagesKept(s0: State, s: State, tr: seq<Label>, l: Label, c: nat, k: Call, m: Move)
    requires ComesFrom(s, l, c, k, m.pc) && Known(s0, tr, s, k, c) && Way(s0, tr, k, c)
    ensures Way(s0, tr + [l], k.(pc := m.pc, promptId := m.promptId), c)
  {
    StagesGrow(s0, tr, l, c, k.req);
    StagesNow(s0, tr, l, c, k.req);
  }

  lemma MoveIsNeeded(s0: State, s: State, tr: seq<Label>, l: Label, c: nat, k: Call, m: Move)
    requires Mover(l) == Some(c) && CallMove(true, s, l, c, k) == Some(m)
    requires Way(s0, tr, k, c) && ShownIfNeeded(s0, tr, k, c)
    ensures ShownIfNeeded(s0, tr + [l], k.(pc := m.pc, promptId := m.promptId), c)
  {
    StagesGrow(s0, tr, l, c, k.req);
    assert forall id :: Render(c, id) in tr + [l] <==> Render(c, id) in tr || l == Render(c, id);
  }

  lemma StepFate(s0: State, tr: seq<Label>, s: State, l: Label, s': State, c: nat)
    requires Inv(s0, tr, s) && Told(s0, tr, s) && Next(true, s, l) == Some(s') && Mover(l) == Some(c) && c < |s'.calls|
    ensures Fate(s0, tr + [l], s'.calls[c], c) && Way(s0, tr + [l], s'.calls[c], c)
  {
    var k := s.calls[c];
    var m := CallMove(true, s, l, c, k).value;
    Knows(s0, tr, s, c);
    assert CallInv(s0, tr, s, c) && Fate(s0, tr, k, c) && Way(s0, tr, k, c);
    MoveShows(s, tr, l, c, k, m);
    MoveFollows(s0, s, tr, l, c, k, m);
    MoveRuns(s0, s, tr, l, c, k, m);
    MoveRefuses(s0, s, tr, l, c, k, m);
    MoveComesFrom(s, l, c, k, m);
    StagesKept(s0, s, tr, l, c, k, m);
    MoveIsNeeded(s0, s, tr, l, c, k, m);
  }

  lemma StepTold(s0: State, tr: seq<Label>, s: State, l: Label, s': State)
    requires Inv(s0, tr, s) && Told(s0, tr, s) && Next(true, s, l) == Some(s')
    ensures Told(s0, tr + [l], s')
  {
    KnowsLabel(s0, tr, s, l);
    StepExact(s0, tr, s, l, s');
    StepMovers(s, tr, l, s');
    CallsStay(true, s, l, s');
    forall c: nat | c < |s'.calls| ensures Fate(s0, tr + [l], s'.calls[c], c) && Way(s0, tr + [l], s'.calls[c], c) {
      if Mover(l) == Some(c) {
        StepFate(s0, tr, s, l, s', c);
      } else {
        if c == |s.calls| {
          NewCall(s0, tr, l.req, c);
        } else {
          OthersStay(true, s, l, s', c);
        }
        OthersLabels(s0, tr, l, s'.calls[c], c);
      }
    }
  }

  lemma {:induction false} RunIsTold(s0: State, tr: seq<Label>)
    requires Initial(s0) && Run(true, s0, tr).Some?
    ensures Told(s0, tr, Run(true, s0, tr).value)
  {
    if tr == [] {
      assert forall t :: t in s0.approvals <==> Granted(s0, tr, t);
    } else {
      var pre := tr[..|tr| - 1];
      RunKeepsInv(s0, pre);
      RunIsTold(s0, pre);
      StepTold(s0, pre, Run(true, s0, pre).value, tr[|tr| - 1], Run(true, s0, tr).value);
      assert tr == pre + [tr[|tr| - 1]];
    }
  }

  // ---------------------------------------------------------------------------------------------
  // What becomes of a call
  // ---------------------------------------------------------------------------------------------

  /** After every run the session's approvals and denials are what its labels make of them: nothing granted is
      forgotten and nothing taken back stays. */
  lemma SessionIsExact(s0: State, tr: seq<Label>, t: string)
    requires Initial(s0) && Run(true, s0, tr).Some?
    ensures var s := Run(true, s0, tr).value;
            (t in s.approvals <==> Granted(s0, tr, t)) && (IsDenied(s, t) <==> DeniedAfter(s0, tr, t))
  {
    RunIsTold(s0, tr);
  }

  /** A call runs, or has the answer that makes it run, if and only if it is authorised: what the wrapper lets through
      is exactly what needs no confirmation, was approved, or was allowed by its own prompt. */
  lemma RunsIffAuthorised(s0: State, tr: seq<Label>, c: nat)
    requires Initial(s0) && Run(true, s0, tr).Some? && c < |Run(true, s0, tr).value.calls|
    ensures Run(true, s0, tr).value.calls[c].pc in {Running, Ran, Deciding(Y), Deciding(A)} <==> Authorised(s0, tr, c)
  {
    CallIsTold(s0, tr, c);
    AuthorisedIff(s0, tr, Run(true, s0, tr).value.calls[c], c);
  }

  lemma AuthorisedIff(s0: State, tr: seq<Label>, k: Call, c: nat)
    requires c < |Requests(tr)| && k.req == Requests(tr)[c] && FollowsAnswers(tr, k, c) && RunsUnasked(s0, tr, k, c)
    requires k.pc.Deciding? ==> Answered(tr, c, k.pc.choice) && k.req.trust != "deny"
    requires k.pc in {Running, Ran} ==> Authorised(s0, tr, c)
    ensures k.pc in {Running, Ran, Deciding(Y), Deciding(A)} <==> Authorised(s0, tr, c)
  {
    assert Authorised(s0, tr, c) ==> k.pc in {Running, Ran} || Answered(tr, c, Y) || Answered(tr, c, A);
  }

  lemma CallIsTold(s0: State, tr: seq<Label>, c: nat)
    requires Initial(s0) && Run(true, s0, tr).Some? && c < |Run(true, s0, tr).value.calls|
    ensures var k := Run(true, s0, tr).value.calls[c];
            c < |Requests(tr)| && k.req == Requests(tr)[c] && Fate(s0, tr, k, c) &&
            (k.pc.Deciding? ==> Answered(tr, c, k.pc.choice) && k.req.trust != "deny") &&
            (k.pc in {Running, Ran} ==> Authorised(s0, tr, c))
  {
    RunKeepsInv(s0, tr);
    RunIsTold(s0, tr);
    assert CallInv(s0, tr, Run(true, s0, tr).value, c);
  }

  predicate Over(pc: Pc) { pc.Ran? || pc.Denied? || pc.Aborted? }

  /** So the labels of a run tell how each finished call ended. */
  lemma FinishedCallsAreTold(s0: State, tr: seq<Label>, c: nat)
    requires Initial(s0) && Run(true, s0, tr).Some? && c < |Run(true, s0, tr).value.calls|
    requires Over(Run(true, s0, tr).value.calls[c].pc)
    ensures var k := Run(true, s0, tr).value.calls[c];
            (k.pc == Ran <==> Authorised(s0, tr, c)) && (k.pc == Denied <==> Refused(s0, tr, c, k.req)) &&
            (k.pc == Aborted <==> CalledOff(tr, c))
  {
    RunsIffAuthorised(s0, tr, c);
    RunIsTold(s0, tr);
    assert Fate(s0, tr, Run(true, s0, tr).value.calls[c], c);
  }

  /** The user is asked only about a call that needs it. */
  lemma PromptsAreNeeded(s0: State, tr: seq<Label>, c: nat, id: string)
    requires Initial(s0) && Run(true, s0, tr).Some? && Render(c, id) in tr
    ensures c < |Requests(tr)| && Needed(s0, tr, c, Requests(tr)[c])
  {
    RunKeepsInv(s0, tr);
    RunIsTold(s0, tr);
    var s := Run(true, s0, tr).value;
    assert Mover(Render(c, id)) == Some(c);
    assert Fate(s0, tr, s.calls[c], c);
  }

  lemma Extends(s0: State, tr: seq<Label>, l: Label)
    requires Run(true, s0, tr).Some?
    ensures Run(true, s0, tr + [l]) == Next(true, Run(true, s0, tr).value, l)
  {
    Grow(tr, l);
  }

  /** There is always a prompt id that has not been used. */
  lemma {:induction false} LongerThan(ids: set<string>) returns (n: nat)
    ensures forall id :: id in ids ==> |id| < n
  {
    n := 0;
    if ids != {} {
      var id :| id in ids;
      n := LongerThan(ids - {id});
      n := n + |id| + 1;
    }
  }

  lemma FreshId(ids: set<string>) returns (id: string)
    ensures id !in ids
  {
    var n := LongerThan(ids);
    id := seq(n, _ => 'p');
  }

  /** A remembered approval is honoured: a call that has the lock, of a tool that is approved and not denied, runs by
      its own three steps without anybody being asked, and all else stays as it was. */
  lemma ApprovedCallRuns(s0: State, tr: seq<Label>, c: nat)
    requires Run(true, s0, tr).Some? && InPc(Run(true, s0, tr).value, c, Holding)
    requires var s := Run(true, s0, tr).value; s.calls[c].req.tool in s.approvals && !IsDenied(s, s.calls[c].req.tool)
    ensures var s := Run(true, s0, tr).value;
            Run(true, s0, tr + [CheckDenied(c)] + [CheckApproved(c)] + [Execute(c)]) ==
              Some(s.(lock := None, calls := s.calls[c := s.calls[c].(pc := Ran)]))
  {
    var s := Run(true, s0, tr).value;
    var tr1, s1 := GoCall(true, s0, tr, s, CheckDenied(c), c);
    var tr2, s2 := GoCall(true, s0, tr1, s1, CheckApproved(c), c);
    var tr3, s3 := GoCall(true, s0, tr2, s2, Execute(c), c);
    assert s3.calls == s.calls[c := s.calls[c].(pc := Ran)];
  }

  /** After its approval check a call's prompt can follow if and only if the tool was not approved and there is
      somebody to ask. An approved call runs next; one that nobody can be asked about is denied, and its tool with
      it. */
  lemma AsksIff(s0: State, tr: seq<Label>, c: nat)
    requires Initial(s0) && Run(true, s0, tr + [CheckApproved(c)]).Some?
    ensures var s := Run(true, s0, tr).value;
            var after := Run(true, s0, tr + [CheckApproved(c)]).value;
            c < |s.calls| && c < |after.calls| &&
            var t := s.calls[c].req.tool;
            ((exists id :: Run(true, s0, tr + [CheckApproved(c)] + [Render(c, id)]).Some?) <==>
               t !in s.approvals && s.calls[c].req.hasUi) &&
            (after.calls[c].pc == Running <==> t in s.approvals) &&
            (after.calls[c].pc == Denied <==> t !in s.approvals && !s.calls[c].req.hasUi) &&
            after.approvals == s.approvals && after.denyAll == s.denyAll &&
            after.denials == s.denials + (if after.calls[c].pc == Denied then {t} else {})
  {
    var tr1 := tr + [CheckApproved(c)];
    Grow(tr, CheckApproved(c));
    var s, after := Run(true, s0, tr).value, Run(true, s0, tr1).value;
    SlotStaysOk(s0, tr1);
    ApprovalChecked(s, c, after);
    forall id ensures Run(true, s0, tr1 + [Render(c, id)]) == Next(true, after, Render(c, id)) {
      Extends(s0, tr1, Render(c, id));
    }
    CanRenderIff(after, c);
  }

  lemma SlotStaysOk(s0: State, tr: seq<Label>)
    requires Initial(s0) && Run(true, s0, tr).Some?
    ensures SlotOk(Run(true, s0, tr).value.slot)
  {
    RunKeepsInv(s0, tr);
  }

  lemma ApprovalChecked(s: State, c: nat, after: State)
    requires Next(true, s, CheckApproved(c)) == Some(after)
    ensures c < |s.calls| == |after.calls|
    ensures var t, pc := s.calls[c].req.tool, after.calls[c].pc;
            (pc == Asking <==> t !in s.approvals && s.calls[c].req.hasUi) && (pc == Running <==> t in s.approvals) &&
            (pc == Denied <==> t !in s.approvals && !s.calls[c].req.hasUi) &&
            after.approvals == s.approvals && after.denyAll == s.denyAll &&
            after.denials == s.denials + (if pc == Denied then {t} else {})
  {
  }

  lemma CanRenderIff(s: State, c: nat)
    requires SlotOk(s.slot) && c < |s.calls|
    ensures (exists id :: Next(true, s, Render(c, id)).Some?) <==> s.calls[c].pc == Asking
  {
    var unused := FreshId(s.usedIds);
    assert s.calls[c].pc == Asking ==> Next(true, s, Render(c, unused)).Some?;
  }

  // ---------------------------------------------------------------------------------------------
  // Every call can be brought to its end
  // ---------------------------------------------------------------------------------------------

  function OwnStep(s: State, c: nat, k: Call, freshId: string): Label {
    match k.pc
    case Start => Invoke(c, IsDenied(s, k.req.tool))
    case Invoked => Enter(c)
    case Gated => ReadNoConfirm(c)
    case WantLock => Acquire(c)
    case Running => Execute(c)
    case pc => NextStep(pc, c, freshId)
  }

  function StepsToGo(pc: Pc): (n: nat)
    ensures n <= 12
  {
    match pc
    case Start => 12
    case Invoked => 11
    case Gated => 10
    case WantLock => 9
    case Running => 1
    case pc => if Inside(pc) then StepsLeft(pc) + 1 else 0
  }

  lemma MoveOutside(s: State, c: nat, k: Call, freshId: string)
    requires !Inside(k.pc) && !Over(k.pc) && s.lock == None
    ensures var l := OwnStep(s, c, k, freshId);
            CallMove(true, s, l, c, k).Some? && StepsToGo(CallMove(true, s, l, c, k).value.pc) < StepsToGo(k.pc) &&
            CallMove(true, s, l, c, k).value.lock in {None, Some(c)}
  {
  }

  lemma MoveInside(s: State, c: nat, k: Call, freshId: string)
    requires SlotOk(s.slot) && freshId !in s.usedIds && (k.pc.Shown? ==> s.slot.pending.Some?)
    requires Inside(k.pc) && s.lock == Some(c)
    ensures var l := NextStep(k.pc, c, freshId);
            CallMove(true, s, l, c, k).Some? && StepsToGo(CallMove(true, s, l, c, k).value.pc) < StepsToGo(k.pc) &&
            CallMove(true, s, l, c, k).value.lock in {None, Some(c)}
  {
  }

  /** What the invariant gives a call that wants to move while the block is free or its own. */
  predicate Ready(s: State, c: nat) {
    c < |s.calls| && s.lock in {None, Some(c)} && SlotOk(s.slot) && (s.calls[c].pc.Shown? ==> s.slot.pending.Some?) &&
    (s.lock == None <==> !Inside(s.calls[c].pc))
  }

  lemma IsReady(s0: State, tr: seq<Label>, c: nat)
    requires Initial(s0) && Run(true, s0, tr).Some? && c < |Run(true, s0, tr).value.calls|
    requires Run(true, s0, tr).value.lock in {None, Some(c)}
    ensures Ready(Run(true, s0, tr).value, c)
  {
    RunKeepsInv(s0, tr);
    assert CallInv(s0, tr, Run(true, s0, tr).value, c);
  }

  lemma TakesOwnStep(s0: State, tr: seq<Label>, s: State, c: nat) returns (l: Label, s': State)
    requires Run(true, s0, tr) == Some(s) && Ready(s, c) && !Over(s.calls[c].pc)
    ensures Run(true, s0, tr + [l]) == Some(s') && Mover(l) == Some(c) && |s'.calls| == |s.calls|
    ensures s'.lock in {None, Some(c)} && StepsToGo(s'.calls[c].pc) < StepsToGo(s.calls[c].pc)
  {
    var id := FreshId(s.usedIds);
    l := OwnStep(s, c, s.calls[c], id);
    if Inside(s.calls[c].pc) { MoveInside(s, c, s.calls[c], id); } else { MoveOutside(s, c, s.calls[c], id); }
    var tr1;
    tr1, s' := GoCall(true, s0, tr, s, l, c);
  }

  /** With the block free, or its own, a call gets to its end by its own steps. */
  lemma {:induction false} FinishesAlone(s0: State, tr: seq<Label>, s: State, c: nat)
    returns (more: seq<Label>, s': State)
    requires Initial(s0) && Run(true, s0, tr) == Some(s) && c < |s.calls| && s.lock in {None, Some(c)}
    ensures Run(true, s0, tr + more) == Some(s') && |s'.calls| == |s.calls| && Over(s'.calls[c].pc) && s'.lock == None
    ensures |more| <= StepsToGo(s.calls[c].pc) && forall l :: l in more ==> Mover(l) == Some(c)
    decreases StepsToGo(s.calls[c].pc)
  {
    IsReady(s0, tr, c);
    if Over(s.calls[c].pc) {
      more, s' := [], s;
      assert tr + more == tr;
    } else {
      var l, s1 := TakesOwnStep(s0, tr, s, c);
      var rest;
      rest, s' := FinishesAlone(s0, tr + [l], s1, c);
      more := [l] + rest;
      Joined(tr, [l], rest, c, c);
    }
  }

  /** From every reachable state every call can be brought to its end by its own steps, after those of the call that
      holds the lock: nobody needs to answer, and no call can be stuck behind another for ever. */
  lemma EveryCallCanFinish(s0: State, tr: seq<Label>, c: nat) returns (more: seq<Label>, s': State)
    requires Initial(s0) && Run(true, s0, tr).Some? && c < |Run(true, s0, tr).value.calls|
    ensures Run(true, s0, tr + more) == Some(s') && c < |s'.calls| && Over(s'.calls[c].pc) && s'.lock == None
    ensures |more| <= 24 && forall l :: l in more ==> Mover(l) in {Some(c), Run(true, s0, tr).value.lock}
  {
    var s := Run(true, s0, tr).value;
    HolderExists(s0, tr);
    if s.lock == None {
      more, s' := FinishesAlone(s0, tr, s, c);
    } else {
      var first, s1 := FinishesAlone(s0, tr, s, s.lock.value);
      var rest;
      rest, s' := FinishesAlone(s0, tr + first, s1, c);
      more := first + rest;
      Joined(tr, first, rest, c, s.lock.value);
    }
  }

  lemma Joined(tr: seq<Label>, first: seq<Label>, rest: seq<Label>, c: nat, d: nat)
    requires (forall l :: l in first ==> Mover(l) == Some(d)) && forall l :: l in rest ==> Mover(l) == Some(c)
    ensures tr + (first + rest) == tr + first + rest && forall l :: l in first + rest ==> Mover(l) in {Some(c), Some(d)}
  {
  }

  lemma HolderExists(s0: State, tr: seq<Label>)
    requires Initial(s0) && Run(true, s0, tr).Some?
    ensures var s := Run(true, s0, tr).value; s.lock.Some? ==> s.lock.value < |s.calls|
  {
    RunKeepsInv(s0, tr);
  }
}
