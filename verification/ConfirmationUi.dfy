/** The WebSocket confirmation UI (cogtrix_core/api/confirmation.py) and the prompt loop that drives it
    (cogtrix_core/agent/safety.py). Each method body is one critical section of the UI's own lock. */
module ConfirmationUi {
  import opened Options
  import opened Text

  datatype ConfirmationResult =
    | ApprovedOnce | ApprovedSession | DeniedOnce | DeniedDisable | DeniedAll | Cancelled

  const TIMEOUT_MS: nat := 300_000
  const POLL_MS: nat := 500

  // ---------------------------------------------------------------------------------------------
  // Actions and choices
  // ---------------------------------------------------------------------------------------------

  /** The six one-letter codes. */
  datatype Choice = Y | N | A | D | F | C

  function Letter(choice: Choice): string {
    match choice
    case Y => "y"
    case N => "n"
    case A => "a"
    case D => "d"
    case F => "f"
    case C => "c"
  }

  /** `_ACTION_MAP.get(action, "n")`. */
  function ChoiceFor(action: string): Choice {
    if action == "allow" then Y
    else if action == "deny" then N
    else if action == "allow_all" then A
    else if action == "disable" then D
    else if action == "forbid_all" then F
    else if action == "cancel" then C
    else N
  }

  /** What each code means to the wrapper. */
  function Meaning(choice: Choice): ConfirmationResult {
    match choice
    case Y => ApprovedOnce
    case N => DeniedOnce
    case A => ApprovedSession
    case D => DeniedDisable
    case F => DeniedAll
    case C => Cancelled
  }

  /** How the prompt loop reads a typed choice; `None` means ask again. */
  function Classify(raw: string): Option<ConfirmationResult> {
    var choice := Lower(Strip(raw));
    if choice in ["a", "all"] then Some(ApprovedSession)
    else if choice in ["y", "yes", ""] then Some(ApprovedOnce)
    else if choice in ["n", "no"] then Some(DeniedOnce)
    else if choice in ["f", "forbid-all", "forbid"] then Some(DeniedAll)
    else if choice in ["d", "disable"] then Some(DeniedDisable)
    else if choice in ["c", "cancel"] then Some(Cancelled)
    else None
  }

  /** The prompt loop understands every code the UI hands out at its first read. */
  lemma CodesAreUnderstood(choice: Choice)
    ensures Classify(Letter(choice)) == Some(Meaning(choice))
  {
    var c := Letter(choice);
    assert Strip(c) == c && Lower(c) == c;
  }

  /** What a terminal user may type, in any case and with blanks around: an answer in words means what it says, an empty
      one approves once, and anything else is asked again. */
  lemma TypedWords(before: string, word: string, behind: string)
    requires Blank(before) && Blank(behind) && (word != "" ==> !IsSpace(word[0]) && !IsSpace(word[|word| - 1]))
    ensures var r, w := Classify(before + word + behind), Lower(word);
            (r == Some(ApprovedOnce) <==> w in {"", "y", "yes"}) && (r == Some(ApprovedSession) <==> w in {"a", "all"}) &&
            (r == Some(DeniedOnce) <==> w in {"n", "no"}) && (r == Some(DeniedDisable) <==> w in {"d", "disable"}) &&
            (r == Some(DeniedAll) <==> w in {"f", "forbid", "forbid-all"}) && (r == Some(Cancelled) <==> w in {"c", "cancel"})
  {
    StripRemovesBlanks(before, word, behind);
  }

  /** Whatever a client sends, it approves only by `allow` or `allow_all`; anything unknown denies once. */
  lemma ActionsApprove(action: string)
    ensures var r := Classify(Letter(ChoiceFor(action)));
            r.Some? &&
            (r.value.ApprovedOnce? <==> action == "allow") &&
            (r.value.ApprovedSession? <==> action == "allow_all") &&
            (r.value.DeniedAll? <==> action == "forbid_all") &&
            (r.value.DeniedDisable? <==> action == "disable") &&
            (r.value.Cancelled? <==> action == "cancel")
  {
    CodesAreUnderstood(ChoiceFor(action));
  }

  /** `run_confirmation_prompt` after the prompt is shown: `inputs` are the values `read_choice` gives in
      turn, `None` being a closed input. Runs out (`None`) only when no value was understood. */
  method RunConfirmationPrompt(inputs: seq<Option<string>>)
    returns (result: Option<ConfirmationResult>, used: nat)
    ensures used <= |inputs|
    ensures forall i :: 0 <= i < used - 1 ==> inputs[i].Some? && Classify(inputs[i].value).None?
    ensures result.None? ==> used == |inputs|
    ensures result.None? ==> forall i :: 0 <= i < used ==> inputs[i].Some? && Classify(inputs[i].value).None?
    ensures result.Some? ==> used > 0
    ensures result.Some? && inputs[used - 1].None? ==> result.value == DeniedOnce
    ensures result.Some? && inputs[used - 1].Some? ==> result == Classify(inputs[used - 1].value)
  {
    used := 0;
    while used < |inputs|
      invariant used <= |inputs|
      invariant forall i :: 0 <= i < used ==> inputs[i].Some? && Classify(inputs[i].value).None?
    {
      var raw := inputs[used];
      used := used + 1;
      if raw.None? {
        return Some(DeniedOnce), used;
      }
      var r := Classify(raw.value);
      if r.Some? {
        return r, used;
      }
    }
    result := None;
  }

  // ---------------------------------------------------------------------------------------------
  // The pending slot
  // ---------------------------------------------------------------------------------------------

  /** The UI's fields. `events` are all event objects ever made, each with its set flag. */
  datatype Slot = Slot(events: seq<bool>, pending: Option<nat>, action: Choice, promptId: string,
                       cancelRequested: bool)

  const EMPTY_SLOT := Slot([], None, N, "", false)

  predicate SlotOk(s: Slot) { s.pending.Some? ==> s.pending.value < |s.events| }

  predicate IsSet(s: Slot)
    requires SlotOk(s) && s.pending.Some?
  {
    s.events[s.pending.value]
  }

  /** A new prompt releases whoever still waits on the previous one. */
  function Rendered(s: Slot, id: string): (r: Slot)
    requires SlotOk(s)
    ensures SlotOk(r) && r.pending == Some(|s.events|) && !IsSet(r)
    ensures s.pending.Some? ==> r.events[s.pending.value]
  {
    var released := if s.pending.Some? then s.events[s.pending.value := true] else s.events;
    Slot(released + [false], Some(|released|), N, id, false)
  }

  predicate Matches(s: Slot, id: string) { id == s.promptId && s.pending.Some? }

  function Resolved(s: Slot, id: string, action: string): (r: Slot)
    requires SlotOk(s)
    ensures SlotOk(r)
  {
    if Matches(s, id)
    then s.(action := ChoiceFor(action), events := s.events[s.pending.value := true])
    else s
  }

  function CancelledSlot(s: Slot): (r: Slot)
    requires SlotOk(s)
    ensures SlotOk(r)
  {
    s.(cancelRequested := true,
       events := if s.pending.Some? then s.events[s.pending.value := true] else s.events)
  }

  /** What ends the polling loop of a reader that waits on `event`, other than its deadline. */
  predicate Woken(s: Slot, event: nat)
    requires event < |s.events|
  {
    s.events[event] || s.pending != Some(event) || s.cancelRequested
  }

  class ApiConfirmationUI {
    var events: seq<bool>
    var pendingEvent: Option<nat>
    var pendingAction: Choice
    var confirmationId: string
    var cancelRequested: bool

    ghost function View(): Slot
      reads this
    {
      Slot(events, pendingEvent, pendingAction, confirmationId, cancelRequested)
    }

    constructor ()
      ensures View() == EMPTY_SLOT
    {
      events, pendingEvent, pendingAction, confirmationId, cancelRequested := [], None, N, "", false;
    }

    method RenderPrompt(freshId: string)
      requires SlotOk(View())
      modifies this
      ensures View() == Rendered(old(View()), freshId)
    {
      if pendingEvent.Some? && !events[pendingEvent.value] {
        pendingAction := N;
        events := events[pendingEvent.value := true];
      }
      confirmationId := freshId;
      events := events + [false];
      pendingEvent := Some(|events| - 1);
      pendingAction := N;
      cancelRequested := false;
    }

    method Resolve(id: string, action: string) returns (ok: bool)
      requires SlotOk(View())
      modifies this
      ensures ok == Matches(old(View()), id)
      ensures View() == Resolved(old(View()), id, action)
    {
      if id != confirmationId || pendingEvent.None? {
        return false;
      }
      pendingAction := ChoiceFor(action);
      events := events[pendingEvent.value := true];
      ok := true;
    }

    method Cancel()
      requires SlotOk(View())
      modifies this
      ensures View() == CancelledSlot(old(View()))
    {
      cancelRequested := true;
      if pendingEvent.Some? {
        events := events[pendingEvent.value := true];
      }
    }
  }

  // ---------------------------------------------------------------------------------------------
  // The polling loop of read_choice
  // ---------------------------------------------------------------------------------------------

  /** What one pass of the loop observes: whether the wait was signalled, how long it took, and the two
      fields it looks at under the lock. */
  datatype Poll = Poll(signalled: bool, tookMs: nat, stillPending: bool, cancelled: bool)

  /** A wait that is not signalled takes the whole poll interval. */
  ghost predicate HonestClock(polls: nat -> Poll) {
    forall i: nat :: !polls(i).signalled ==> polls(i).tookMs >= POLL_MS
  }

  predicate Stops(p: Poll) { p.signalled || !p.stillPending || p.cancelled }

  /** How long the first n polls took. */
  ghost function Elapsed(polls: nat -> Poll, n: nat): nat {
    if n == 0 then 0 else Elapsed(polls, n - 1) + polls(n - 1).tookMs
  }

  /** The loop ends after at most 600 polls, at the first poll that stops it or at the deadline, and no poll begins
      after the deadline. */
  method PollUntilDone(polls: nat -> Poll) returns (count: nat, elapsedMs: nat)
    requires HonestClock(polls)
    ensures count <= 600
    ensures forall i :: 0 <= i < count - 1 ==> !Stops(polls(i))
    ensures elapsedMs == Elapsed(polls, count)
    ensures forall i: nat :: i < count ==> Elapsed(polls, i) < TIMEOUT_MS
    ensures elapsedMs >= TIMEOUT_MS || (count > 0 && Stops(polls(count - 1)))
  {
    count, elapsedMs := 0, 0;
    while elapsedMs < TIMEOUT_MS
      invariant elapsedMs >= POLL_MS * count
      invariant elapsedMs == Elapsed(polls, count) && forall i: nat :: i < count ==> Elapsed(polls, i) < TIMEOUT_MS
      invariant count <= 600
      invariant forall i :: 0 <= i < count ==> !Stops(polls(i))
      decreases TIMEOUT_MS - elapsedMs
    {
      var p := polls(count);
      count, elapsedMs := count + 1, elapsedMs + p.tookMs;
      if p.signalled {
        break;
      }
      if !p.stillPending {
        break;
      }
      if p.cancelled {
        break;
      }
    }
  }
}
