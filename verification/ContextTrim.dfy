/** Fitting a conversation into a token budget (cogtrix_core/agent/core.py). */
module ContextTrim {

  // ---------------------------------------------------------------------------------------------
  // Messages
  // ---------------------------------------------------------------------------------------------

  /** `Empty` is every falsy content; `Parts` holds the printed length of each block of a list. */
  datatype Content = Empty | Text(text: string) | Parts(lengths: seq<nat>)

  datatype Kind = System | Human | AI(calls: set<string>) | Tool(callId: string) | Other

  datatype Message = Message(kind: Kind, content: Content)

  const MIN_RESPONSE_TOKENS := 1024
  const MAX_SINGLE_MESSAGE_TOKENS := 6000

  function Sum(xs: seq<nat>): nat {
    if xs == [] then 0 else xs[0] + Sum(xs[1..])
  }

  /** `_estimate_msg_tokens`: four characters a token, 10 for a message without content. */
  function Estimate(m: Message): (tokens: nat)
    ensures tokens >= 1
  {
    match m.content
    case Empty => 10
    case Text(t) => if t == "" then 10 else if |t| / 4 > 1 then |t| / 4 else 1
    case Parts(ls) => if ls == [] then 10 else if Sum(ls) / 4 > 1 then Sum(ls) / 4 else 1
  }

  function Cost(ms: seq<Message>): nat {
    if ms == [] then 0 else Estimate(ms[0]) + Cost(ms[1..])
  }

  // ---------------------------------------------------------------------------------------------
  // Truncating one message
  // ---------------------------------------------------------------------------------------------

  function Decimal(n: nat): (s: string)
    ensures |s| >= 1
  {
    if n < 10 then [('0' as int + n) as char] else Decimal(n / 10) + Decimal(n % 10)
  }

  function Value(digits: string): int {
    if digits == "" then 0 else 10 * Value(digits[..|digits| - 1]) + (digits[|digits| - 1] as int - '0' as int)
  }

  lemma {:induction false} DecimalReadsBack(n: nat)
    ensures Value(Decimal(n)) == n && forall c :: c in Decimal(n) ==> '0' <= c <= '9'
  {
    var last := ('0' as int + n % 10) as char;
    if n < 10 {
      assert Decimal(n)[..0] == "";
    } else {
      DecimalReadsBack(n / 10);
      assert Decimal(n)[..|Decimal(n)| - 1] == Decimal(n / 10) && Decimal(n % 10) == [last];
    }
  }

  function Marker(removed: nat): string {
    "\n\n[... truncated: " + Decimal(removed) + " chars removed to fit context window ...]\n\n"
  }

  /** `_truncate_content`: keep the two ends, note in between how much is gone. */
  function TruncateContent(content: string, maxTokens: int): (r: string)
    ensures maxTokens <= 0 || |content| <= maxTokens * 4 ==> r == content
  {
    if maxTokens <= 0 || |content| <= maxTokens * 4 then content
    else
      var half := maxTokens * 4 / 2;
      content[..half] + Marker(|content| - maxTokens * 4) + content[|content| - half..]
  }

  /** Shortens a message whose estimate is over `limit`, if it has text to shorten. */
  function Shorten(m: Message, limit: int): (r: Message)
    ensures r.kind == m.kind
  {
    if limit > 0 && Estimate(m) > limit && m.content.Text? && m.content.text != ""
    then m.(content := Text(TruncateContent(m.content.text, limit)))
    else m
  }

  function ShortenAll(ms: seq<Message>, limit: int): (r: seq<Message>)
    ensures |r| == |ms|
    ensures forall i :: 0 <= i < |ms| ==> r[i] == Shorten(ms[i], limit)
  {
    seq(|ms|, i requires 0 <= i < |ms| => Shorten(ms[i], limit))
  }

  /** A truncated text keeps both ends, with the marker between them. */
  lemma TruncatedText(content: string, maxTokens: nat)
    requires maxTokens > 0 && |content| > maxTokens * 4
    ensures var r, half, marker := TruncateContent(content, maxTokens), 2 * maxTokens, Marker(|content| - 4 * maxTokens);
            |r| == 4 * maxTokens + |marker| && r[half..|r| - half] == marker &&
            r[..half] == content[..half] && r[|r| - half..] == content[|content| - half..]
  {
    var half, marker := 2 * maxTokens, Marker(|content| - 4 * maxTokens);
    assert maxTokens * 4 / 2 == half;
    BothEnds(content[..half], marker, content[|content| - half..]);
  }

  lemma BothEnds(a: string, m: string, b: string)
    requires |a| == |b|
    ensures var r, half := a + m + b, |a|;
            |r| == 2 * half + |m| && r[..half] == a && r[half..|r| - half] == m && r[|r| - half..] == b
  {
  }

  /** After shortening, a text message costs at most the limit plus the marker's own tokens. */
  lemma ShortenedCost(m: Message, limit: nat)
    requires limit > 0 && m.content.Text? && m.content.text != ""
    ensures var removed := |m.content.text| - 4 * limit;
            Estimate(Shorten(m, limit)) <=
            if Estimate(m) > limit && removed > 0 then limit + |Marker(removed)| / 4 else limit
  {
    if Estimate(m) > limit {
      TruncatedText(m.content.text, limit);
    }
  }

  // ---------------------------------------------------------------------------------------------
  // The budget
  // ---------------------------------------------------------------------------------------------

  /** Tokens kept free for the answer: a quarter of the window, at least 1024. */
  function Reserve(window: int): int {
    if window / 4 > MIN_RESPONSE_TOKENS then window / 4 else MIN_RESPONSE_TOKENS
  }

  function Budget(window: int): (b: int)
  {
    if window - Reserve(window) <= 0 then window / 2 else window - Reserve(window)
  }

  /** The answer always gets its reserve, or half of a window too small to hold one; any larger budget would leave
      less than 1024 tokens or less than a quarter of the window. */
  lemma BudgetLeavesRoom(window: nat)
    ensures Budget(window) <= window
    ensures window > MIN_RESPONSE_TOKENS ==> window - Budget(window) >= MIN_RESPONSE_TOKENS
    ensures window > MIN_RESPONSE_TOKENS ==> 0 < Budget(window) && 4 * Budget(window) <= 3 * window + 3
    ensures window <= MIN_RESPONSE_TOKENS ==> Budget(window) == window / 2
    ensures window > MIN_RESPONSE_TOKENS ==>
              var more := Budget(window) + 1; window - more < MIN_RESPONSE_TOKENS || 4 * (window - more) + 3 < window
  {
  }

  // ---------------------------------------------------------------------------------------------
  // Parts of a conversation
  // ---------------------------------------------------------------------------------------------

  function HeadOf(ms: seq<Message>): (h: seq<Message>)
    ensures |h| <= |ms|
  {
    if |ms| > 0 && ms[0].kind.System? then ms[..1] else []
  }

  function TailOf(ms: seq<Message>): (t: seq<Message>)
    ensures |HeadOf(ms)| + |t| <= |ms|
  {
    if |ms| > |HeadOf(ms)| then ms[|ms| - 1..] else []
  }

  function HistoryOf(ms: seq<Message>): (h: seq<Message>)
  {
    ms[|HeadOf(ms)|..|ms| - |TailOf(ms)|]
  }

  lemma PartsMakeWhole(ms: seq<Message>)
    ensures HeadOf(ms) + HistoryOf(ms) + TailOf(ms) == ms
  {
  }

  // ---------------------------------------------------------------------------------------------
  // Trimming
  // ---------------------------------------------------------------------------------------------

  predicate Orphanable(m: Message) { m.kind.AI? || m.kind.Tool? }

  /** What the head and tail become. */
  function FixedHead(ms: seq<Message>, window: int): seq<Message> {
    ShortenAll(HeadOf(ms), Budget(window) / 2)
  }

  function FixedTail(ms: seq<Message>, window: int): seq<Message> {
    ShortenAll(TailOf(ms), Budget(window) / 2)
  }

  function HistoryBudget(ms: seq<Message>, window: int): int {
    Budget(window) - Cost(FixedHead(ms, window) + FixedTail(ms, window))
  }

  /** The first position from which `hist` costs at most `budget`. */
  function Fit(hist: seq<Message>, budget: nat): (d: nat)
    ensures d <= |hist|
  {
    if Cost(hist) <= budget || hist == [] then 0 else 1 + Fit(hist[1..], budget)
  }

  /** How many leading messages are AI or Tool messages. */
  function Leading(hist: seq<Message>): (k: nat)
    ensures k <= |hist|
  {
    if hist == [] || !Orphanable(hist[0]) then 0 else 1 + Leading(hist[1..])
  }

  /** The history that is kept: the part that fits, from its first possible start of a turn. */
  function Kept(hist: seq<Message>, budget: nat): seq<Message> {
    var fit := hist[Fit(hist, budget)..];
    fit[Leading(fit)..]
  }

  function Trimmed(ms: seq<Message>, window: int): seq<Message> {
    var head, tail := FixedHead(ms, window), FixedTail(ms, window);
    var left := HistoryBudget(ms, window);
    if left <= 0 then head + tail
    else head + Kept(ShortenAll(HistoryOf(ms), MAX_SINGLE_MESSAGE_TOKENS), left) + tail
  }

  lemma {:induction false} CostConcat(a: seq<Message>, b: seq<Message>)
    ensures Cost(a + b) == Cost(a) + Cost(b)
  {
    if a == [] {
      assert a + b == b;
    } else {
      CostConcat(a[1..], b);
      assert (a + b)[1..] == a[1..] + b;
    }
  }

  /** The bucket loops: replace oversized messages in place. */
  method ShortenBucket(ms: seq<Message>, limit: int) returns (bucket: seq<Message>)
    ensures bucket == ShortenAll(ms, limit)
  {
    bucket := ms;
    ghost var goal := ShortenAll(ms, limit);
    for i := 0 to |ms|
      invariant |bucket| == |ms|
      invariant forall k :: 0 <= k < i ==> bucket[k] == goal[k]
      invariant forall k :: i <= k < |ms| ==> bucket[k] == ms[k]
    {
      var m := bucket[i];
      assert m == ms[i] && goal[i] == Shorten(m, limit);
      if Estimate(m) > limit && limit > 0 {
        if m.content.Text? && m.content.text != "" {
          bucket := bucket[i := m.(content := Text(TruncateContent(m.content.text, limit)))];
        }
      }
      assert bucket[i] == goal[i];
    }
  }

  /** The drop loop: forget the oldest messages while the rest is too expensive. */
  method DropOldest(hist: seq<Message>, budget: nat) returns (dropCount: nat)
    ensures dropCount == Fit(hist, budget)
  {
    var total := Cost(hist);
    dropCount := 0;
    assert hist[0..] == hist;
    while dropCount < |hist| && total > budget
      invariant dropCount <= |hist|
      invariant total == Cost(hist[dropCount..])
      invariant Fit(hist, budget) == dropCount + Fit(hist[dropCount..], budget)
    {
      assert hist[dropCount..][1..] == hist[dropCount + 1..];
      total := total - Estimate(hist[dropCount]);
      dropCount := dropCount + 1;
    }
  }

  /** The orphan loop: forget leading AI and Tool messages. */
  method DropOrphans(hist: seq<Message>) returns (removed: nat)
    ensures removed == Leading(hist)
  {
    removed := 0;
    assert hist[0..] == hist;
    while removed < |hist|
      invariant removed <= |hist|
      invariant Leading(hist) == removed + Leading(hist[removed..])
    {
      assert hist[removed..][1..] == hist[removed + 1..];
      if hist[removed].kind.Tool? {
        removed := removed + 1;
        continue;
      }
      if hist[removed].kind.AI? {
        removed := removed + 1;
        continue;
      }
      break;
    }
  }

  /** System head, user tail, and the history between them. */
  method SplitParts(messages: seq<Message>)
    returns (head: seq<Message>, history: seq<Message>, tail: seq<Message>)
    ensures head == HeadOf(messages) && history == HistoryOf(messages) && tail == TailOf(messages)
  {
    head, tail, history := [], [], messages;
    if |history| > 0 && history[0].kind.System? {
      head, history := [history[0]], history[1..];
    }
    if |history| > 0 {
      tail, history := [history[|history| - 1]], history[..|history| - 1];
    }
  }

  /** Shorten, drop what does not fit, drop orphans. */
  method TrimHistory(messages: seq<Message>, budget: nat) returns (history: seq<Message>)
    ensures history == Kept(ShortenAll(messages, MAX_SINGLE_MESSAGE_TOKENS), budget)
  {
    history := ShortenBucket(messages, MAX_SINGLE_MESSAGE_TOKENS);
    var dropCount := DropOldest(history, budget);
    history := history[dropCount..];
    var removed := DropOrphans(history);
    history := history[removed..];
  }

  /** `_trim_to_token_budget`. */
  method TrimToTokenBudget(messages: seq<Message>, window: int) returns (result: seq<Message>)
    ensures result == Trimmed(messages, window)
  {
    var reserve := if window / 4 > MIN_RESPONSE_TOKENS then window / 4 else MIN_RESPONSE_TOKENS;
    var budget := window - reserve;
    if budget <= 0 {
      budget := window / 2;
    }
    var head, history, tail := SplitParts(messages);
    head := ShortenBucket(head, budget / 2);
    tail := ShortenBucket(tail, budget / 2);
    assert head == FixedHead(messages, window) && tail == FixedTail(messages, window);
    var historyBudget := budget - Cost(head + tail);
    assert historyBudget == HistoryBudget(messages, window);
    if historyBudget <= 0 {
      return head + tail;
    }
    history := TrimHistory(history, historyBudget);
    result := head + history + tail;
  }

  // ---------------------------------------------------------------------------------------------
  // What is kept
  // ---------------------------------------------------------------------------------------------

  /** The part that fits is the longest one: dropping any fewer messages is too expensive. */
  lemma {:induction false} FitIsLongest(hist: seq<Message>, budget: nat)
    ensures var d := Fit(hist, budget);
            Cost(hist[d..]) <= budget && forall e :: 0 <= e < d ==> Cost(hist[e..]) > budget
  {
    if Cost(hist) <= budget || hist == [] {
      assert hist[0..] == hist;
    } else {
      FitIsLongest(hist[1..], budget);
      var d := Fit(hist, budget);
      assert hist[d..] == hist[1..][d - 1..];
      forall e | 0 <= e < d ensures Cost(hist[e..]) > budget {
        assert hist[0..] == hist;
        assert e > 0 ==> hist[e..] == hist[1..][e - 1..];
      }
    }
  }

  lemma {:induction false} LeadingIsFirstTurn(hist: seq<Message>)
    ensures var k := Leading(hist);
            (forall i :: 0 <= i < k ==> Orphanable(hist[i])) && (k < |hist| ==> !Orphanable(hist[k]))
  {
    if hist != [] && Orphanable(hist[0]) {
      LeadingIsFirstTurn(hist[1..]);
    }
  }

  /** Where the kept history starts. */
  function KeptFrom(hist: seq<Message>, budget: nat): (k: nat)
    ensures k <= |hist|
  {
    Fit(hist, budget) + Leading(hist[Fit(hist, budget)..])
  }

  /** The kept history is a suffix; it fits; it starts a turn; everything between the longest suffix that
      fits and it are AI and Tool messages. */
  lemma KeptIsSuffix(hist: seq<Message>, budget: nat)
    ensures var d, k := Fit(hist, budget), KeptFrom(hist, budget);
            Kept(hist, budget) == hist[k..] && Cost(hist[k..]) <= budget &&
            (k < |hist| ==> !Orphanable(hist[k])) && (forall i :: d <= i < k ==> Orphanable(hist[i]))
  {
    FitIsLongest(hist, budget);
    DropsToTurn(hist, Fit(hist, budget));
  }

  lemma DropsToTurn(hist: seq<Message>, d: nat)
    requires d <= |hist|
    ensures var k := d + Leading(hist[d..]);
            hist[d..][k - d..] == hist[k..] && Cost(hist[k..]) <= Cost(hist[d..]) &&
            (k < |hist| ==> !Orphanable(hist[k])) && (forall i :: d <= i < k ==> Orphanable(hist[i]))
  {
    var l := Leading(hist[d..]);
    LeadingIsFirstTurn(hist[d..]);
    DropFront(hist, d, l);
    forall i | d <= i < d + l ensures Orphanable(hist[i]) {
      assert hist[d..][i - d] == hist[i];
    }
  }

  lemma DropFront(hist: seq<Message>, d: nat, l: nat)
    requires d + l <= |hist|
    ensures hist[d..][l..] == hist[d + l..] && Cost(hist[d + l..]) <= Cost(hist[d..])
    ensures d + l < |hist| ==> hist[d..][l] == hist[d + l]
  {
    var fit := hist[d..];
    assert fit == fit[..l] + fit[l..];
    CostConcat(fit[..l], fit[l..]);
  }

  /** With room for history the result costs at most the budget; without it nothing of the history is
      left. Either way the system head and the user message survive, shortened at most. */
  lemma TrimmedFits(ms: seq<Message>, window: int)
    ensures HistoryBudget(ms, window) > 0 ==> Cost(Trimmed(ms, window)) <= Budget(window)
    ensures FixedHead(ms, window) + FixedTail(ms, window) == Trimmed(ms, window)
            || HistoryBudget(ms, window) > 0
    ensures FixedHead(ms, window) <= Trimmed(ms, window)
    ensures var n, t := |Trimmed(ms, window)|, |FixedTail(ms, window)|;
            n >= t && Trimmed(ms, window)[n - t..] == FixedTail(ms, window)
  {
    var head, tail := FixedHead(ms, window), FixedTail(ms, window);
    var left := HistoryBudget(ms, window);
    if left > 0 {
      var hist := ShortenAll(HistoryOf(ms), MAX_SINGLE_MESSAGE_TOKENS);
      KeptIsSuffix(hist, left);
      CostConcat(head + Kept(hist, left), tail);
      CostConcat(head, Kept(hist, left));
      CostConcat(head, tail);
    }
  }

  /** The first message, if it is the system's, and the last one are always sent, shortened to half the budget at
      most. */
  lemma EndsSurvive(ms: seq<Message>, window: int)
    requires ms != []
    ensures var out := Trimmed(ms, window);
            out != [] && out[|out| - 1] == Shorten(ms[|ms| - 1], Budget(window) / 2) &&
            (ms[0].kind.System? ==> out[0] == Shorten(ms[0], Budget(window) / 2)) && (|ms| > 1 && ms[0].kind.System? ==> |out| > 1)
  {
  }

  /** `m` shortened to `limit`, and what it then costs if it is a text: the limit, and the marker where it was cut. */
  ghost predicate ShortenedTo(m: Message, limit: int, r: Message) {
    r == Shorten(m, limit) &&
    (limit > 0 && m.content.Text? && m.content.text != "" ==>
       var removed := |m.content.text| - 4 * limit;
       Estimate(r) <= if Estimate(m) > limit && removed > 0 then limit + |Marker(removed)| / 4 else limit)
  }

  lemma AllShortenedTo(ms: seq<Message>, limit: int, i: nat)
    requires i < |ms|
    ensures ShortenedTo(ms[i], limit, ShortenAll(ms, limit)[i])
  {
    if limit > 0 && ms[i].content.Text? && ms[i].content.text != "" { ShortenedCost(ms[i], limit); }
  }

  /** Every message of the result is a message of the conversation, shortened: a system or user message to half the
      budget, one of the history to the single-message limit. */
  lemma EveryMessageIsBounded(ms: seq<Message>, window: int, i: nat)
    requires i < |Trimmed(ms, window)|
    ensures var out := Trimmed(ms, window);
            var fixed := i < |FixedHead(ms, window)| || i >= |out| - |FixedTail(ms, window)|;
            var limit := if fixed then Budget(window) / 2 else MAX_SINGLE_MESSAGE_TOKENS;
            exists m :: m in ms && ShortenedTo(m, limit, out[i])
  {
    var out, head, tail := Trimmed(ms, window), FixedHead(ms, window), FixedTail(ms, window);
    TrimmedFits(ms, window);
    PartsMakeWhole(ms);
    var h := |out| - |tail|;
    if i < |head| {
      AllShortenedTo(HeadOf(ms), Budget(window) / 2, i);
      assert out[i] == head[i] && HeadOf(ms)[i] in ms;
    } else if i >= h {
      AllShortenedTo(TailOf(ms), Budget(window) / 2, i - h);
      assert out[i] == out[h..][i - h] && TailOf(ms)[i - h] in ms;
    } else {
      KeptMessageIsBounded(ms, window, i);
    }
  }

  lemma KeptMessageIsBounded(ms: seq<Message>, window: int, i: nat)
    requires |FixedHead(ms, window)| <= i < |Trimmed(ms, window)| - |FixedTail(ms, window)|
    ensures exists m :: m in ms && ShortenedTo(m, MAX_SINGLE_MESSAGE_TOKENS, Trimmed(ms, window)[i])
  {
    var left, raw := HistoryBudget(ms, window), HistoryOf(ms);
    var hist := ShortenAll(raw, MAX_SINGLE_MESSAGE_TOKENS);
    KeptIsSuffix(hist, left);
    var k := KeptFrom(hist, left) + i - |FixedHead(ms, window)|;
    assert Trimmed(ms, window)[i] == Kept(hist, left)[i - |FixedHead(ms, window)|] == hist[k];
    AllShortenedTo(raw, MAX_SINGLE_MESSAGE_TOKENS, k);
    PartsMakeWhole(ms);
    assert raw[k] in ms;
  }

  /** A conversation that already fits and starts a turn is only shortened, never dropped. */
  lemma NothingDroppedWhenItFits(ms: seq<Message>, window: int)
    requires var hist := ShortenAll(HistoryOf(ms), MAX_SINGLE_MESSAGE_TOKENS);
             HistoryBudget(ms, window) > 0 && Cost(hist) <= HistoryBudget(ms, window) &&
             (hist != [] ==> !Orphanable(hist[0]))
    ensures |Trimmed(ms, window)| == |ms|
    ensures forall i :: 0 <= i < |ms| ==> Trimmed(ms, window)[i].kind == ms[i].kind
  {
    PartsMakeWhole(ms);
    var hist := ShortenAll(HistoryOf(ms), MAX_SINGLE_MESSAGE_TOKENS);
    var left := HistoryBudget(ms, window);
    assert Fit(hist, left) == 0;
    assert hist[0..] == hist;
    assert Leading(hist) == 0;
    assert Kept(hist, left) == hist;
  }

  // ---------------------------------------------------------------------------------------------
  // Characters
  // ---------------------------------------------------------------------------------------------

  /** The printed length of a message. */
  function Chars(m: Message): nat {
    match m.content
    case Empty => 0
    case Text(t) => |t|
    case Parts(ls) => Sum(ls)
  }

  /** What it is charged with, in characters: 40 for a message without content, and at least 4. */
  function Charge(m: Message): nat {
    if m.content in {Empty, Text(""), Parts([])} then 40 else if Chars(m) < 4 then 4 else Chars(m)
  }

  function TotalChars(ms: seq<Message>): nat { if ms == [] then 0 else Chars(ms[0]) + TotalChars(ms[1..]) }

  function TotalCharge(ms: seq<Message>): nat { if ms == [] then 0 else Charge(ms[0]) + TotalCharge(ms[1..]) }

  /** Costs are charges in fours, rounded down for each message. */
  lemma {:induction false} CostIsCharge(ms: seq<Message>)
    ensures 4 * Cost(ms) <= TotalCharge(ms) <= 4 * Cost(ms) + 3 * |ms| && TotalChars(ms) <= TotalCharge(ms)
  {
    if ms != [] { CostIsCharge(ms[1..]); }
  }

  /** What is sent with any history at all is no longer than four characters a token of the budget, but for the up
      to three a message that rounding hides. */
  lemma TextFitsBudget(ms: seq<Message>, window: int)
    requires |Trimmed(ms, window)| > |HeadOf(ms)| + |TailOf(ms)|
    ensures TotalChars(Trimmed(ms, window)) <= TotalCharge(Trimmed(ms, window)) <= 4 * Budget(window) + 3 * |Trimmed(ms, window)|
  {
    TrimmedFits(ms, window);
    CostIsCharge(Trimmed(ms, window));
  }

  /** A text at least four characters over the limit is cut, its two ends kept around a marker that says how much is
      gone. Anything else stays as it is. */
  lemma CutFromFourOver(m: Message, limit: nat)
    requires limit > 0
    ensures var r := Shorten(m, limit);
            if m.content.Text? && Chars(m) >= 4 * limit + 4
            then r.kind == m.kind && r.content.Text? && Chars(r) == 4 * limit + |Marker(Chars(m) - 4 * limit)| &&
              r.content.text[..2 * limit] == m.content.text[..2 * limit] &&
              r.content.text[Chars(r) - 2 * limit..] == m.content.text[Chars(m) - 2 * limit..] &&
              r.content.text[2 * limit..Chars(r) - 2 * limit] ==
                "\n\n[... truncated: " + Decimal(Chars(m) - 4 * limit) + " chars removed to fit context window ...]\n\n"
            else r == m
  {
    if m.content.Text? && Chars(m) >= 4 * limit + 4 { TruncatedText(m.content.text, limit); }
  }

  /** Nothing is dropped that could have stayed: every longer end of the history than the one that fits is, together
      with the fixed parts, charged with more than four characters a token of the budget, and of the one that fits
      only leading AI and Tool messages are dropped. */
  lemma OnlyTheExcessIsDropped(ms: seq<Message>, window: int) returns (d: nat, k: nat)
    ensures var head, tail := FixedHead(ms, window), FixedTail(ms, window);
            var hist := ShortenAll(HistoryOf(ms), MAX_SINGLE_MESSAGE_TOKENS);
            d <= k <= |hist| && Trimmed(ms, window) == head + hist[k..] + tail &&
            (forall i :: d <= i < k ==> hist[i].kind.AI? || hist[i].kind.Tool?) &&
            (k < |hist| ==> !hist[k].kind.AI? && !hist[k].kind.Tool?) &&
            forall e :: 0 <= e < d ==> TotalCharge(head + hist[e..] + tail) > 4 * Budget(window)
  {
    var head, tail := FixedHead(ms, window), FixedTail(ms, window);
    var hist := ShortenAll(HistoryOf(ms), MAX_SINGLE_MESSAGE_TOKENS);
    var left := HistoryBudget(ms, window);
    if left <= 0 {
      d, k := |hist|, |hist|;
      assert head + hist[k..] + tail == head + tail;
    } else {
      d, k := Fit(hist, left), KeptFrom(hist, left);
      FitIsLongest(hist, left);
      KeptIsSuffix(hist, left);
    }
    forall e | 0 <= e < d ensures TotalCharge(head + hist[e..] + tail) > 4 * Budget(window) {
      assert left <= 0 ==> Cost(hist[e..]) > 0;
      SuffixExceeds(head, hist[e..], tail, Budget(window));
    }
  }

  lemma SuffixExceeds(head: seq<Message>, rest: seq<Message>, tail: seq<Message>, budget: int)
    requires Cost(head + tail) + Cost(rest) > budget
    ensures TotalCharge(head + rest + tail) > 4 * budget
  {
    CostConcat(head, tail);
    CostConcat(head, rest);
    CostConcat(head + rest, tail);
    CostIsCharge(head + rest + tail);
  }

  /** A conversation that fits and starts a turn, without an oversized message, is sent as it is. */
  lemma WhatFitsIsSentWhole(ms: seq<Message>, window: int)
    requires TotalCharge(ms) <= 4 * Budget(window)
    requires forall m :: m in HeadOf(ms) + TailOf(ms) ==> Chars(m) < 4 * (Budget(window) / 2) + 4
    requires forall m :: m in HistoryOf(ms) ==> Chars(m) < 4 * MAX_SINGLE_MESSAGE_TOKENS + 4
    requires HistoryOf(ms) != [] ==> !HistoryOf(ms)[0].kind.AI? && !HistoryOf(ms)[0].kind.Tool?
    ensures Trimmed(ms, window) == ms
  {
    PartsMakeWhole(ms);
    var head, hist, tail := HeadOf(ms), HistoryOf(ms), TailOf(ms);
    NothingCut(head, Budget(window) / 2);
    NothingCut(tail, Budget(window) / 2);
    NothingCut(hist, MAX_SINGLE_MESSAGE_TOKENS);
    var d, k := OnlyTheExcessIsDropped(ms, window);
    assert hist[0..] == hist;
    assert d == 0 && k == 0;
  }

  lemma NothingCut(ms: seq<Message>, limit: int)
    requires forall m :: m in ms ==> Chars(m) < 4 * limit + 4
    ensures ShortenAll(ms, limit) == ms
  {
    forall i | 0 <= i < |ms| ensures Shorten(ms[i], limit) == ms[i] {
      if limit > 0 { CutFromFourOver(ms[i], limit); }
    }
  }

  // ---------------------------------------------------------------------------------------------
  // Tool results keep the call they answer
  // ---------------------------------------------------------------------------------------------

  /** `o` is the AI message that made the call which the Tool message at `t` answers. */
  ghost predicate Owns(ms: seq<Message>, o: nat, t: nat) {
    o < t < |ms| && ms[o].kind.AI? && ms[t].kind.Tool? && ms[t].kind.callId in ms[o].kind.calls
    && forall i :: o < i < t ==> Orphanable(ms[i])
  }

  ghost predicate Paired(ms: seq<Message>) {
    forall t :: 0 <= t < |ms| && ms[t].kind.Tool? ==> exists o: nat :: Owns(ms, o, t)
  }

  lemma SameKindsPaired(a: seq<Message>, b: seq<Message>)
    requires |a| == |b| && forall i :: 0 <= i < |a| ==> a[i].kind == b[i].kind
    requires Paired(a)
    ensures Paired(b)
  {
    forall t | 0 <= t < |b| && b[t].kind.Tool? ensures exists o: nat :: Owns(b, o, t) {
      assert a[t].kind.Tool?;
      var o: nat :| Owns(a, o, t);
      assert forall i :: o < i < t ==> a[i].kind == b[i].kind;
      assert Owns(b, o, t);
    }
  }

  /** A suffix that does not start inside a turn keeps every owner. */
  lemma SuffixPaired(ms: seq<Message>, k: nat)
    requires Paired(ms) && k <= |ms| && (k < |ms| ==> !Orphanable(ms[k]))
    ensures Paired(ms[k..])
  {
    var s := ms[k..];
    forall t | 0 <= t < |s| && s[t].kind.Tool? ensures exists o: nat :: Owns(s, o, t) {
      assert ms[k + t].kind.Tool?;
      var o: nat :| Owns(ms, o, k + t);
      assert o >= k;
      assert forall i :: o - k < i < t ==> s[i] == ms[k + i];
      assert Owns(s, o - k, t);
    }
  }

  lemma SlicePaired(ms: seq<Message>, a: nat, b: nat)
    requires Paired(ms) && a <= b <= |ms|
    requires forall i :: 0 <= i < a || b <= i < |ms| ==> !Orphanable(ms[i])
    ensures Paired(ms[a..b])
  {
    var s := ms[a..b];
    forall t | 0 <= t < |s| && s[t].kind.Tool? ensures exists o: nat :: Owns(s, o, t) {
      assert ms[a + t].kind.Tool?;
      var o: nat :| Owns(ms, o, a + t);
      assert Orphanable(ms[o]);
      assert forall i :: o - a < i < t ==> s[i] == ms[a + i];
      assert Owns(s, o - a, t);
    }
  }

  lemma FramePaired(pre: seq<Message>, mid: seq<Message>, post: seq<Message>)
    requires Paired(mid)
    requires forall m :: m in pre || m in post ==> !m.kind.Tool?
    ensures Paired(pre + mid + post)
  {
    var s := pre + mid + post;
    forall t | 0 <= t < |s| && s[t].kind.Tool? ensures exists o: nat :: Owns(s, o, t) {
      var u := t - |pre|;
      assert 0 <= u < |mid| && s[t] == mid[u];
      var o: nat :| Owns(mid, o, u);
      assert forall i :: o < i < u ==> s[|pre| + i] == mid[i];
      assert forall i :: o + |pre| < i < t ==> s[i] == mid[i - |pre|];
      assert Owns(s, o + |pre|, t);
    }
  }

  /** If every tool result follows its call with only AI and Tool messages in between, and the last
      message is the user's, the same holds after trimming: no kept tool result has lost its call. */
  lemma TrimmedPaired(ms: seq<Message>, window: int)
    requires Paired(ms) && |ms| > 0 && ms[|ms| - 1].kind.Human?
    ensures Paired(Trimmed(ms, window))
  {
    var head, tail := FixedHead(ms, window), FixedTail(ms, window);
    var left := HistoryBudget(ms, window);
    FixedPartsAreNoTools(ms, window);
    if left <= 0 {
      assert head + [] + tail == head + tail;
      FramePaired(head, [], tail);
    } else {
      HistoryPaired(ms);
      KeptPaired(HistoryOf(ms), left);
      FramePaired(head, Kept(ShortenAll(HistoryOf(ms), MAX_SINGLE_MESSAGE_TOKENS), left), tail);
    }
  }

  lemma HistoryPaired(ms: seq<Message>)
    requires Paired(ms) && |ms| > 0 && ms[|ms| - 1].kind.Human?
    ensures Paired(HistoryOf(ms))
  {
    SlicePaired(ms, |HeadOf(ms)|, |ms| - |TailOf(ms)|);
  }

  lemma FixedPartsAreNoTools(ms: seq<Message>, window: int)
    requires |ms| > 0 && ms[|ms| - 1].kind.Human?
    ensures forall m :: m in FixedHead(ms, window) || m in FixedTail(ms, window) ==> !m.kind.Tool?
  {
  }

  lemma KeptPaired(raw: seq<Message>, left: nat)
    requires Paired(raw)
    ensures Paired(Kept(ShortenAll(raw, MAX_SINGLE_MESSAGE_TOKENS), left))
  {
    var hist := ShortenAll(raw, MAX_SINGLE_MESSAGE_TOKENS);
    SameKindsPaired(raw, hist);
    KeptIsSuffix(hist, left);
    SuffixPaired(hist, KeptFrom(hist, left));
  }

  /** `prepare_messages_with_context`; `input` is the user's text, or the blocks of a multimodal message. */
  method PrepareMessages(history: seq<Message>, prefix: string, input: Content, window: int)
    returns (result: seq<Message>)
    ensures result == Prepared(history, prefix, input, window)
  {
    result := [];
    if prefix != "" {
      result := result + [Message(Human, Text("Current context:\n" + prefix))];
    }
    result := result + history;
    result := result + [Message(Human, input)];
    assert result == Assembled(history, prefix, input);
    if window > 0 {
      result := TrimToTokenBudget(result, window);
    }
  }

  function Assembled(history: seq<Message>, prefix: string, input: Content): seq<Message> {
    (if prefix != "" then [Message(Human, Text("Current context:\n" + prefix))] else [])
    + history + [Message(Human, input)]
  }

  /** Window 0 stands for no limit. */
  function Prepared(history: seq<Message>, prefix: string, input: Content, window: int): seq<Message> {
    if window > 0 then Trimmed(Assembled(history, prefix, input), window)
    else Assembled(history, prefix, input)
  }

  /** Without a limit everything is sent: the context, if there is one, the whole history, and the user's input. */
  lemma NoLimitSendsAll(history: seq<Message>, prefix: string, input: Content, window: int)
    requires window <= 0
    ensures var p, n := Prepared(history, prefix, input, window), if prefix != "" then 1 else 0;
            |p| == n + |history| + 1 && p[n..n + |history|] == history && p[|p| - 1] == Message(Human, input) &&
            (n == 1 ==> p[0].kind == Human && p[0].content == Text("Current context:\n" + prefix))
  {
  }

  /** A paired history gives a paired prompt that ends with the user's message, for every window. */
  lemma PreparedPaired(history: seq<Message>, prefix: string, input: Content, window: int)
    requires Paired(history)
    ensures var p := Prepared(history, prefix, input, window);
            Paired(p) && |p| > 0 && p[|p| - 1].kind == Human
  {
    var pre := if prefix != "" then [Message(Human, Text("Current context:\n" + prefix))] else [];
    FramePaired(pre, history, [Message(Human, input)]);
    var all := Assembled(history, prefix, input);
    if window > 0 {
      TrimmedPaired(all, window);
      TrimmedFits(all, window);
    }
  }
}
