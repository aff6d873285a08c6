/** Streaming an agent turn to a WebSocket (cogtrix_core/api/callbacks.py), and what a client that follows
    the frames ends up showing. Frames are those handed to the queue, before any is dropped. */
module StreamCallbacks {
  import opened Options

  /** A callback; `at` is the clock in milliseconds. */
  datatype Event =
    | LlmToken(text: string, run: Option<string>)
    | ToolStart(run: Option<string>, at: nat)
    | ToolEnd(run: Option<string>, at: nat)
    | ToolError(run: Option<string>, at: nat)
    | LlmError

  datatype Frame =
    | TokenFrame(text: string, final: bool)
    | DiscardPending
    | ToolStartFrame(id: string)
    | ToolEndFrame(id: string, durationMs: int, failed: bool)
    | ErrorFrame

  /** The handler's fields, with the frames it has enqueued. */
  datatype View = View(toolStarts: map<string, nat>, toolCalls: nat, buffered: bool, finalRun: Option<string>,
                       frames: seq<Frame>)

  const EMPTY_VIEW := View(map[], 0, false, None, [])

  /** `str(run_id) if run_id is not None else ""`. */
  function Key(run: Option<string>): string { if run.None? then "" else run.value }

  predicate IsFinal(v: View) { v.toolCalls > 0 && v.toolStarts == map[] }

  function Handle(stream: bool, v: View, e: Event): View {
    match e
    case LlmToken(text, run) =>
      if !IsFinal(v) then v.(frames := v.frames + [TokenFrame(text, false)])
      else if !stream then v.(buffered := true)
      else
        var discard := if v.finalRun.Some? && run != v.finalRun then [DiscardPending] else [];
        v.(finalRun := run, frames := v.frames + discard + [TokenFrame(text, true)])
    case ToolStart(run, at) =>
      v.(toolStarts := v.toolStarts[Key(run) := at], toolCalls := v.toolCalls + 1,
         frames := v.frames + [ToolStartFrame(Key(run))])
    case ToolEnd(run, at) =>
      v.(toolStarts := v.toolStarts - {Key(run)},
         frames := v.frames + [ToolEndFrame(Key(run), Duration(v, run, at), false)])
    case ToolError(run, at) =>
      v.(toolStarts := v.toolStarts - {Key(run)},
         frames := v.frames + [ToolEndFrame(Key(run), Duration(v, run, at), true)])
    case LlmError => v.(frames := v.frames + [ErrorFrame])
  }

  /** Zero when no start was recorded under this key. */
  function Duration(v: View, run: Option<string>, at: nat): int {
    if Key(run) in v.toolStarts then at - v.toolStarts[Key(run)] else 0
  }

  function HandleAll(stream: bool, es: seq<Event>): View {
    if es == [] then EMPTY_VIEW else Handle(stream, HandleAll(stream, es[..|es| - 1]), es[|es| - 1])
  }

  class WebSocketCallbackHandler {
    const stream: bool
    var toolStarts: map<string, nat>
    var toolCallCount: nat
    var finalAnswerBuffered: bool
    var finalRunId: Option<string>
    var frames: seq<Frame>

    ghost function State(): View
      reads this
    {
      View(toolStarts, toolCallCount, finalAnswerBuffered, finalRunId, frames)
    }

    constructor (stream: bool)
      ensures this.stream == stream && State() == EMPTY_VIEW
    {
      this.stream := stream;
      toolStarts, toolCallCount, finalAnswerBuffered, finalRunId, frames := map[], 0, false, None, [];
    }

    method Enqueue(f: Frame)
      modifies this`frames
      ensures frames == old(frames) + [f]
    {
      frames := frames + [f];
    }

    method OnLlmNewToken(token: string, run: Option<string>)
      modifies this
      ensures State() == Handle(stream, old(State()), LlmToken(token, run))
    {
      var isFinal := toolCallCount > 0 && |toolStarts| == 0;
      if isFinal {
        if !stream {
          finalAnswerBuffered := true;
          return;
        }
        if finalRunId.Some? && run != finalRunId {
          Enqueue(DiscardPending);
        }
        finalRunId := run;
        Enqueue(TokenFrame(token, true));
        return;
      }
      Enqueue(TokenFrame(token, false));
    }

    method OnToolStart(run: Option<string>, at: nat)
      modifies this
      ensures State() == Handle(stream, old(State()), ToolStart(run, at))
    {
      var key := if run.Some? then run.value else "";
      toolStarts := toolStarts[key := at];
      toolCallCount := toolCallCount + 1;
      Enqueue(ToolStartFrame(key));
    }

    method OnToolEnd(run: Option<string>, at: nat)
      modifies this
      ensures State() == Handle(stream, old(State()), ToolEnd(run, at))
    {
      var key := if run.Some? then run.value else "";
      var start := if key in toolStarts then toolStarts[key] else at;
      toolStarts := toolStarts - {key};
      Enqueue(ToolEndFrame(key, at - start, false));
    }

    method OnToolError(run: Option<string>, at: nat)
      modifies this
      ensures State() == Handle(stream, old(State()), ToolError(run, at))
    {
      var key := if run.Some? then run.value else "";
      var start := if key in toolStarts then toolStarts[key] else at;
      toolStarts := toolStarts - {key};
      Enqueue(ToolEndFrame(key, at - start, true));
    }
  }

  // ---------------------------------------------------------------------------------------------
  // Which tools are in flight
  // ---------------------------------------------------------------------------------------------

  predicate Starts(e: Event, key: string) { e.ToolStart? && Key(e.run) == key }

  predicate Ends(e: Event, key: string) { (e.ToolEnd? || e.ToolError?) && Key(e.run) == key }

  /** A tool under this key has started and no tool under it has ended since. */
  ghost predicate InFlight(es: seq<Event>, key: string) {
    exists i :: 0 <= i < |es| && Starts(es[i], key) && forall j :: i < j < |es| ==> !Ends(es[j], key)
  }

  ghost predicate Started(es: seq<Event>, key: string) { exists i :: 0 <= i < |es| && Starts(es[i], key) }

  ghost predicate Ended(es: seq<Event>, key: string) { exists i :: 0 <= i < |es| && Ends(es[i], key) }

  /** Run ids are distinct, and a tool ends only after it has started. */
  ghost predicate WellPaired(es: seq<Event>) {
    (forall i, j, key :: 0 <= i < j < |es| && Starts(es[i], key) ==> !Starts(es[j], key)) &&
    (forall i, j, key :: 0 <= i < j < |es| && Ends(es[i], key) ==> !Starts(es[j], key))
  }

  lemma InFlightGrows(es: seq<Event>, e: Event, key: string)
    ensures InFlight(es + [e], key) <==> Starts(e, key) || (InFlight(es, key) && !Ends(e, key))
  {
    var all := es + [e];
    if InFlight(all, key) {
      var i :| 0 <= i < |all| && Starts(all[i], key) && forall j :: i < j < |all| ==> !Ends(all[j], key);
      if i < |es| {
        assert all[|es|] == e;
        assert forall j :: i < j < |es| ==> es[j] == all[j];
      }
    }
    if Starts(e, key) {
      assert all[|es|] == e;
    } else if InFlight(es, key) && !Ends(e, key) {
      var i :| 0 <= i < |es| && Starts(es[i], key) && forall j :: i < j < |es| ==> !Ends(es[j], key);
      assert all[i] == es[i];
    }
  }

  /** For every event sequence, the recorded keys are exactly those of tools in flight. */
  lemma {:induction false} ToolStartsAreInFlight(stream: bool, es: seq<Event>, key: string)
    ensures key in HandleAll(stream, es).toolStarts <==> InFlight(es, key)
  {
    if es != [] {
      var pre, e := es[..|es| - 1], es[|es| - 1];
      ToolStartsAreInFlight(stream, pre, key);
      InFlightGrows(pre, e, key);
      assert es == pre + [e];
    }
  }

  /** With distinct run ids and well-paired events they are the started tools that have not ended. */
  lemma InFlightWhenPaired(es: seq<Event>, key: string)
    requires WellPaired(es)
    ensures InFlight(es, key) <==> Started(es, key) && !Ended(es, key)
  {
    if InFlight(es, key) {
      var i :| 0 <= i < |es| && Starts(es[i], key) && forall j :: i < j < |es| ==> !Ends(es[j], key);
      forall k | 0 <= k < |es| ensures !Ends(es[k], key) {
        assert k < i ==> !Ends(es[k], key);
      }
    }
  }

  ghost predicate SomeToolStarted(es: seq<Event>) { exists i :: 0 <= i < |es| && es[i].ToolStart? }

  lemma {:induction false} CallsCountStarts(stream: bool, es: seq<Event>)
    ensures HandleAll(stream, es).toolCalls > 0 <==> SomeToolStarted(es)
  {
    if es != [] {
      var pre := es[..|es| - 1];
      CallsCountStarts(stream, pre);
      if SomeToolStarted(pre) {
        var i :| 0 <= i < |pre| && pre[i].ToolStart?;
        assert es[i].ToolStart?;
      }
      if SomeToolStarted(es) && !es[|es| - 1].ToolStart? {
        var i :| 0 <= i < |es| && es[i].ToolStart?;
        assert pre[i].ToolStart?;
      }
    }
  }

  /** A token after `es` belongs to the final answer: some tool has started and none is in flight. */
  ghost predicate Final(es: seq<Event>) { SomeToolStarted(es) && forall key :: !InFlight(es, key) }

  lemma FinalIsDecided(stream: bool, es: seq<Event>)
    ensures IsFinal(HandleAll(stream, es)) <==> Final(es)
  {
    CallsCountStarts(stream, es);
    var starts := HandleAll(stream, es).toolStarts;
    forall key ensures key in starts <==> InFlight(es, key) {
      ToolStartsAreInFlight(stream, es, key);
    }
    if starts != map[] {
      var key :| key in starts;
    }
  }

  // ---------------------------------------------------------------------------------------------
  // What the client shows
  // ---------------------------------------------------------------------------------------------

  datatype Piece = Piece(text: string, run: Option<string>)

  /** The final-answer tokens of a turn, each with the run that produced it. */
  ghost function FinalTokens(es: seq<Event>): seq<Piece> {
    if es == [] then []
    else
      var pre, e := es[..|es| - 1], es[|es| - 1];
      FinalTokens(pre) + if e.LlmToken? && Final(pre) then [Piece(e.text, e.run)] else []
  }

  function Texts(ps: seq<Piece>): (ts: seq<string>)
    ensures |ts| == |ps|
  {
    seq(|ps|, i requires 0 <= i < |ps| => ps[i].text)
  }

  /** A client that appends final tokens and clears them on `discard_pending`. */
  function ShowNext(shown: seq<string>, f: Frame): seq<string> {
    match f
    case TokenFrame(text, final) => if final then shown + [text] else shown
    case DiscardPending => []
    case _ => shown
  }

  function Replay(frames: seq<Frame>): seq<string> {
    if frames == [] then [] else ShowNext(Replay(frames[..|frames| - 1]), frames[|frames| - 1])
  }

  function Discards(frames: seq<Frame>): nat {
    if frames == [] then 0
    else Discards(frames[..|frames| - 1]) + if frames[|frames| - 1].DiscardPending? then 1 else 0
  }

  /** Position i starts a new block: its run differs from the one before. */
  predicate Boundary(ps: seq<Piece>, i: nat) { 0 < i < |ps| && ps[i].run != ps[i - 1].run }

  /** The boundaries the handler notices: those after a token that carries a run id. */
  predicate Noticed(ps: seq<Piece>, i: nat) { Boundary(ps, i) && ps[i - 1].run.Some? }

  function NoticedSet(ps: seq<Piece>): set<nat> { set i: nat | i < |ps| && Noticed(ps, i) }

  function BoundarySet(ps: seq<Piece>): set<nat> { set i: nat | i < |ps| && Boundary(ps, i) }

  /** The last noticed boundary, or the start. */
  function LastNoticed(ps: seq<Piece>): (c: nat)
    ensures c <= |ps|
  {
    if ps == [] then 0
    else if Noticed(ps, |ps| - 1) then |ps| - 1 else LastNoticed(ps[..|ps| - 1])
  }

  ghost predicate StreamInv(v: View, ps: seq<Piece>) {
    !v.buffered &&
    v.finalRun == (if ps == [] then None else ps[|ps| - 1].run) &&
    Replay(v.frames) == Texts(ps[LastNoticed(ps)..]) &&
    Discards(v.frames) == |NoticedSet(ps)|
  }

  lemma ReplaySnoc(frames: seq<Frame>, f: Frame)
    ensures Replay(frames + [f]) == ShowNext(Replay(frames), f)
    ensures Discards(frames + [f]) == Discards(frames) + if f.DiscardPending? then 1 else 0
  {
    assert (frames + [f])[..|frames|] == frames;
  }

  lemma NoticedSnoc(ps: seq<Piece>, p: Piece)
    ensures var more := ps != [] && ps[|ps| - 1].run.Some? && p.run != ps[|ps| - 1].run;
            |NoticedSet(ps + [p])| == |NoticedSet(ps)| + (if more then 1 else 0) &&
            LastNoticed(ps + [p]) == (if more then |ps| else LastNoticed(ps)) &&
            (more <==> Noticed(ps + [p], |ps|))
  {
    var all := ps + [p];
    assert all[..|all| - 1] == ps;
    var more := Noticed(all, |ps|);
    assert NoticedSet(all) == NoticedSet(ps) + if more then {|ps|} else {};
  }

  lemma FinalTokenStep(v: View, ps: seq<Piece>, text: string, run: Option<string>)
    requires StreamInv(v, ps) && IsFinal(v)
    ensures StreamInv(Handle(true, v, LlmToken(text, run)), ps + [Piece(text, run)])
  {
    var p := Piece(text, run);
    var all := ps + [p];
    NoticedSnoc(ps, p);
    var more := v.finalRun.Some? && run != v.finalRun;
    var base := if more then v.frames + [DiscardPending] else v.frames;
    ReplaySnoc(v.frames, DiscardPending);
    ReplaySnoc(base, TokenFrame(text, true));
    assert Handle(true, v, LlmToken(text, run)).frames == base + [TokenFrame(text, true)];
    if more {
      assert all[|ps|..] == [p];
    } else {
      assert all[LastNoticed(ps)..] == ps[LastNoticed(ps)..] + [p];
    }
  }

  lemma OtherStep(v: View, ps: seq<Piece>, e: Event)
    requires StreamInv(v, ps) && (e.LlmToken? ==> !IsFinal(v))
    ensures StreamInv(Handle(true, v, e), ps)
  {
    match e
    case LlmToken(text, _) => ReplaySnoc(v.frames, TokenFrame(text, false));
    case ToolStart(run, _) => ReplaySnoc(v.frames, ToolStartFrame(Key(run)));
    case ToolEnd(run, at) => ReplaySnoc(v.frames, ToolEndFrame(Key(run), Duration(v, run, at), false));
    case ToolError(run, at) => ReplaySnoc(v.frames, ToolEndFrame(Key(run), Duration(v, run, at), true));
    case LlmError => ReplaySnoc(v.frames, ErrorFrame);
  }

  lemma {:induction false} RunKeepsStreamInv(es: seq<Event>)
    ensures StreamInv(HandleAll(true, es), FinalTokens(es))
  {
    if es != [] {
      var pre, e := es[..|es| - 1], es[|es| - 1];
      RunKeepsStreamInv(pre);
      FinalIsDecided(true, pre);
      if e.LlmToken? && Final(pre) {
        FinalTokenStep(HandleAll(true, pre), FinalTokens(pre), e.text, e.run);
      } else {
        OtherStep(HandleAll(true, pre), FinalTokens(pre), e);
        assert FinalTokens(es) == FinalTokens(pre);
      }
    }
  }

  lemma {:induction false} LastNoticedIsLast(ps: seq<Piece>)
    ensures var c := LastNoticed(ps);
            (c == 0 || Noticed(ps, c)) && forall i: nat :: c < i ==> !Noticed(ps, i)
  {
    if ps != [] && !Noticed(ps, |ps| - 1) {
      var pre := ps[..|ps| - 1];
      LastNoticedIsLast(pre);
      forall i: nat | LastNoticed(ps) < i ensures !Noticed(ps, i) {
        assert i < |pre| ==> (Noticed(ps, i) <==> Noticed(pre, i));
        assert i == |pre| ==> i == |ps| - 1;
      }
    }
  }

  /** `b` is where the last maximal block of tokens of one run begins. */
  ghost predicate LastBlockAt(ps: seq<Piece>, b: nat) {
    b <= |ps| && (b == 0 || Boundary(ps, b)) && forall i: nat :: b < i ==> !Boundary(ps, i)
  }

  /** Live streaming, any turn: the client ends with exactly the tokens of the last block if and only if the
      token before that block, if any, carried a run id. */
  lemma ClientShowsLastBlockIff(es: seq<Event>, b: nat)
    requires LastBlockAt(FinalTokens(es), b)
    ensures var ps := FinalTokens(es);
            Replay(HandleAll(true, es).frames) == Texts(ps[b..]) <==> b == 0 || ps[b - 1].run.Some?
  {
    var ps := FinalTokens(es);
    RunKeepsStreamInv(es);
    LastNoticedIsLast(ps);
    var c := LastNoticed(ps);
    assert c <= b;
    if b > 0 && ps[b - 1].run.Some? {
      assert Noticed(ps, b);
    }
    SuffixesDiffer(ps, c, b);
  }

  lemma SuffixesDiffer(ps: seq<Piece>, c: nat, b: nat)
    requires c <= |ps| && b <= |ps|
    ensures Texts(ps[c..]) == Texts(ps[b..]) <==> c == b
  {
    assert |Texts(ps[c..])| == |ps| - c && |Texts(ps[b..])| == |ps| - b;
  }

  /** A turn whose client keeps a superseded answer: the first final token came without a run id. */
  lemma SupersededAnswerStays(tool: string, text: string, better: string, run: string, at: nat)
    ensures var es := [ToolStart(Some(tool), at)] + [ToolEnd(Some(tool), at)] + [LlmToken(text, None)] + [LlmToken(better, Some(run))];
            FinalTokens(es) == [Piece(text, None), Piece(better, Some(run))] && LastBlockAt(FinalTokens(es), 1) &&
            Replay(HandleAll(true, es).frames) == [text, better]
  {
    var es := [ToolStart(Some(tool), at)] + [ToolEnd(Some(tool), at)];
    AfterTool(tool, at);
    TokensAfter(es, text, better, run);
    assert [Piece(text, None), Piece(better, Some(run))][1].run != [Piece(text, None), Piece(better, Some(run))][0].run;
  }

  lemma AfterTool(tool: string, at: nat)
    ensures var es := [ToolStart(Some(tool), at)] + [ToolEnd(Some(tool), at)];
            var v := HandleAll(true, es);
            IsFinal(v) && v.finalRun == None && v.frames != [] && Replay(v.frames) == [] && FinalTokens(es) == []
  {
    var start, end := ToolStart(Some(tool), at), ToolEnd(Some(tool), at);
    OneEventMore([], start);
    OneEventMore([start], end);
    assert [] + [start] == [start] && FinalTokens([]) == [];
    ToolRound(tool, at, HandleAll(true, [start]), HandleAll(true, [start] + [end]));
  }

  lemma ToolRound(tool: string, at: nat, v: View, w: View)
    requires v == Handle(true, EMPTY_VIEW, ToolStart(Some(tool), at)) && w == Handle(true, v, ToolEnd(Some(tool), at))
    ensures IsFinal(w) && w.finalRun == None && w.frames != [] && Replay(w.frames) == []
  {
    assert v.toolStarts.Keys == {tool} && v.toolCalls == 1;
    assert w.toolStarts == map[];
    ReplaySnoc([], ToolStartFrame(tool));
    ReplaySnoc(v.frames, ToolEndFrame(tool, Duration(v, Some(tool), at), false));
  }

  lemma TokensAfter(es: seq<Event>, text: string, better: string, run: string)
    requires var v := HandleAll(true, es); IsFinal(v) && v.finalRun == None && v.frames != [] && Replay(v.frames) == []
    requires FinalTokens(es) == []
    ensures var all := es + [LlmToken(text, None)] + [LlmToken(better, Some(run))];
            FinalTokens(all) == [Piece(text, None), Piece(better, Some(run))] &&
            Replay(HandleAll(true, all).frames) == [text, better]
  {
    var v, first := HandleAll(true, es), LlmToken(text, None);
    OneEventMore(es, first);
    assert v.frames + [] == v.frames;
    var w := HandleAll(true, es + [first]);
    assert w == v.(frames := v.frames + [TokenFrame(text, true)]);
    OneEventMore(es + [first], LlmToken(better, Some(run)));
    assert w.frames + [] == w.frames;
    ShowsTokens(v.frames, text, better);
  }

  lemma OneEventMore(es: seq<Event>, e: Event)
    ensures HandleAll(true, es + [e]) == Handle(true, HandleAll(true, es), e)
    ensures FinalTokens(es + [e]) ==
            FinalTokens(es) + if e.LlmToken? && IsFinal(HandleAll(true, es)) then [Piece(e.text, e.run)] else []
  {
    assert (es + [e])[..|es + [e]| - 1] == es;
    FinalIsDecided(true, es);
  }

  lemma ShowsTokens(frames: seq<Frame>, text: string, better: string)
    requires frames != [] && Replay(frames) == []
    ensures Replay(frames + [TokenFrame(text, true)] + [TokenFrame(better, true)]) == [text, better]
  {
    ReplaySnoc(frames, TokenFrame(text, true));
    ReplaySnoc(frames + [TokenFrame(text, true)], TokenFrame(better, true));
  }

  /** When every final token carries a run id, the client always ends with the last block, and it was told
      to discard once for every earlier block. */
  lemma ClientShowsLastBlock(es: seq<Event>, b: nat)
    requires LastBlockAt(FinalTokens(es), b) && forall p :: p in FinalTokens(es) ==> p.run.Some?
    ensures Replay(HandleAll(true, es).frames) == Texts(FinalTokens(es)[b..])
    ensures Discards(HandleAll(true, es).frames) == |BoundarySet(FinalTokens(es))|
  {
    ClientShowsLastBlockIff(es, b);
    RunKeepsStreamInv(es);
    var ps := FinalTokens(es);
    assert NoticedSet(ps) == BoundarySet(ps);
  }

  /** Without live streaming no final token and no discard is ever enqueued, and the flag is set exactly
      when a final token was held back. */
  lemma {:induction false} BufferedTurn(es: seq<Event>)
    ensures var v := HandleAll(false, es);
            (v.buffered <==> FinalTokens(es) != []) && NothingFinal(v.frames)
  {
    if es != [] {
      var pre := es[..|es| - 1];
      BufferedTurn(pre);
      FinalIsDecided(false, pre);
      BufferedStep(HandleAll(false, pre), es[|es| - 1]);
    }
  }

  ghost predicate NothingFinal(frames: seq<Frame>) {
    forall f :: f in frames ==> !f.DiscardPending? && (f.TokenFrame? ==> !f.final)
  }

  lemma BufferedStep(v: View, e: Event)
    requires NothingFinal(v.frames)
    ensures NothingFinal(Handle(false, v, e).frames)
    ensures Handle(false, v, e).buffered <==> v.buffered || (e.LlmToken? && IsFinal(v))
  {
  }

  // ---------------------------------------------------------------------------------------------
  // No token is lost or reordered
  // ---------------------------------------------------------------------------------------------

  function TokensSent(frames: seq<Frame>): seq<string> {
    if frames == [] then []
    else
      var f := frames[|frames| - 1];
      TokensSent(frames[..|frames| - 1]) + if f.TokenFrame? then [f.text] else []
  }

  ghost function TokensToSend(stream: bool, es: seq<Event>): seq<string> {
    if es == [] then []
    else
      var pre, e := es[..|es| - 1], es[|es| - 1];
      TokensToSend(stream, pre) + if e.LlmToken? && (stream || !Final(pre)) then [e.text] else []
  }

  lemma SentSnoc(frames: seq<Frame>, f: Frame)
    ensures TokensSent(frames + [f]) == TokensSent(frames) + if f.TokenFrame? then [f.text] else []
  {
    assert (frames + [f])[..|frames|] == frames;
  }

  /** Every token is enqueued once and in order, but for the final ones that buffering holds back. */
  lemma {:induction false} TokensAreConserved(stream: bool, es: seq<Event>)
    ensures TokensSent(HandleAll(stream, es).frames) == TokensToSend(stream, es)
  {
    if es != [] {
      var pre, e := es[..|es| - 1], es[|es| - 1];
      TokensAreConserved(stream, pre);
      FinalIsDecided(stream, pre);
      var v := HandleAll(stream, pre);
      SentStep(stream, v, e);
    }
  }

  lemma TokenSent(stream: bool, v: View, text: string, run: Option<string>)
    ensures TokensSent(Handle(stream, v, LlmToken(text, run)).frames) ==
            TokensSent(v.frames) + if stream || !IsFinal(v) then [text] else []
  {
    SentSnoc(v.frames, DiscardPending);
    SentSnoc(v.frames, TokenFrame(text, IsFinal(v)));
    SentSnoc(v.frames + [DiscardPending], TokenFrame(text, true));
    assert v.frames + [] == v.frames && TokensSent(v.frames) + [] == TokensSent(v.frames);
  }

  lemma SentStep(stream: bool, v: View, e: Event)
    ensures TokensSent(Handle(stream, v, e).frames) ==
            TokensSent(v.frames) + if e.LlmToken? && (stream || !IsFinal(v)) then [e.text] else []
  {
    assert TokensSent(v.frames) + [] == TokensSent(v.frames);
    match e
    case LlmToken(text, run) => TokenSent(stream, v, text, run);
    case ToolStart(run, _) => SentSnoc(v.frames, ToolStartFrame(Key(run)));
    case ToolEnd(run, at) => SentSnoc(v.frames, ToolEndFrame(Key(run), Duration(v, run, at), false));
    case ToolError(run, at) => SentSnoc(v.frames, ToolEndFrame(Key(run), Duration(v, run, at), true));
    case LlmError => SentSnoc(v.frames, ErrorFrame);
  }

  // ---------------------------------------------------------------------------------------------
  // What a client hears about tools
  // ---------------------------------------------------------------------------------------------

  /** Event `s` is the last start under this key. */
  ghost predicate LastStart(es: seq<Event>, key: string, s: nat) {
    s < |es| && Starts(es[s], key) && forall j :: s < j < |es| ==> !Starts(es[j], key)
  }

  /** The recorded time of a tool in flight is that of its last start. */
  lemma {:induction false} RecordedStart(stream: bool, es: seq<Event>, key: string, s: nat)
    requires InFlight(es, key) && LastStart(es, key, s)
    ensures key in HandleAll(stream, es).toolStarts && HandleAll(stream, es).toolStarts[key] == es[s].at
  {
    var pre, e := es[..|es| - 1], es[|es| - 1];
    ToolStartsAreInFlight(stream, es, key);
    if s < |pre| {
      InFlightGrows(pre, e, key);
      assert es == pre + [e];
      RecordedStart(stream, pre, key, s);
    }
  }

  /** How long the tool that ends with the next event took: from the last start under its key, or nothing when none
      is in flight. */
  ghost predicate Took(es: seq<Event>, key: string, at: nat, durationMs: int) {
    (!InFlight(es, key) ==> durationMs == 0) &&
    forall s: nat :: InFlight(es, key) && LastStart(es, key, s) ==> durationMs == at - es[s].at
  }

  /** The one frame an event other than a token causes. */
  ghost predicate Announces(es: seq<Event>, e: Event, f: Frame) {
    match e
    case LlmToken(_, _) => false
    case ToolStart(run, _) => f.ToolStartFrame? && f.id == (if run == None then "" else run.value)
    case ToolEnd(run, at) =>
      f.ToolEndFrame? && f.id == (if run == None then "" else run.value) && !f.failed && Took(es, f.id, at, f.durationMs)
    case ToolError(run, at) =>
      f.ToolEndFrame? && f.id == (if run == None then "" else run.value) && f.failed && Took(es, f.id, at, f.durationMs)
    case LlmError => f.ErrorFrame?
  }

  lemma DurationIsTook(stream: bool, es: seq<Event>, run: Option<string>, at: nat)
    ensures Took(es, Key(run), at, Duration(HandleAll(stream, es), run, at))
  {
    ToolStartsAreInFlight(stream, es, Key(run));
    forall s: nat | InFlight(es, Key(run)) && LastStart(es, Key(run), s)
      ensures HandleAll(stream, es).toolStarts[Key(run)] == es[s].at
    {
      RecordedStart(stream, es, Key(run), s);
    }
  }

  /** In every turn each start, end and failure of a tool is announced exactly once, at its place, under its own key and
      with the time since that key's last start, and a token causes nothing but token and discard frames. */
  lemma EveryToolEventIsAnnounced(stream: bool, es: seq<Event>, i: nat)
    requires i < |es|
    ensures var before, after := HandleAll(stream, es[..i]).frames, HandleAll(stream, es[..i + 1]).frames;
            before <= after <= HandleAll(stream, es).frames &&
            (!es[i].LlmToken? ==> |after| == |before| + 1 && Announces(es[..i], es[i], after[|before|])) &&
            (es[i].LlmToken? ==> forall k :: |before| <= k < |after| ==> after[k].TokenFrame? || after[k].DiscardPending?)
  {
    var pre, e := es[..i], es[i];
    assert es[..i + 1][..i] == pre;
    FramesGrow(stream, es, i + 1);
    if e.ToolEnd? || e.ToolError? { DurationIsTook(stream, pre, e.run, e.at); }
  }

  lemma {:induction false} FramesGrow(stream: bool, es: seq<Event>, i: nat)
    requires i <= |es|
    ensures HandleAll(stream, es[..i]).frames <= HandleAll(stream, es).frames
    decreases |es|
  {
    if i == |es| {
      assert es[..i] == es;
    } else {
      var pre := es[..|es| - 1];
      FramesGrow(stream, pre, i);
      assert pre[..i] == es[..i];
      FramesKept(stream, HandleAll(stream, pre), es[|es| - 1]);
    }
  }

  lemma FramesKept(stream: bool, v: View, e: Event)
    ensures v.frames <= Handle(stream, v, e).frames
  {
  }
}
