/** Session metrics (cogtrix_core/analysis/session_metrics.py): the buckets the log parser fills, and the scores
    computed from them. Percentages are exact: rounding to two decimals is left out. */
module SessionMetrics {
  import opened Options
  import opened Text

  // ---------------------------------------------------------------------------------------------
  // The log
  // ---------------------------------------------------------------------------------------------

  /** A log line that matched the line pattern. */
  datatype Line = Line(number: nat, session: string, message: string)

  /** `_SessionData`, as far as tool calls fill it. */
  datatype Session = Session(toolCalls: seq<string>, searches: seq<nat>, checkpoints: seq<nat>, writes: seq<nat>)

  const START := "TOOL_START: "
  const SEARCH := "search_web"
  const CHECKPOINT := "checkpoint"

  const WRITE_TOOLS: set<string> :=
    {"write_file", "filesystem_write_file", "create_or_update_file", "edit_file", "push_files", "create_directory",
     "move_file"}

  const DISCOVERY_TOOLS: set<string> :=
    {"read_text_file", "read_file", "filesystem_read_file", "list_directory", "filesystem_list_directory",
     "get_file_info", "as", "gcc", "wget", "curl", "python", "list_issues", "list_pull_requests",
     "get_pull_request_status", "get_current_datetime", "slack_get_channel_history", "slack_list_channels",
     "slack_post_message", "slack_get_users"}

  const PRODUCTIVE_TOOLS: set<string> :=
    {"write_file", "filesystem_write_file", "create_or_update_file", "edit_file", "push_files", "create_directory",
     "run_shell", "shell", "download_file", "request_tools", "search_web"}

  /** The characters before the first white space. */
  function UpToSpace(s: string): string {
    if s == "" || IsSpace(s[0]) then "" else [s[0]] + UpToSpace(s[1..])
  }

  /** `s.split()[0]`: an `IndexError` when there is no word. */
  function FirstWord(s: string): Option<string> {
    if s == "" then None
    else if IsSpace(s[0]) then FirstWord(s[1..])
    else Some(UpToSpace(s))
  }

  /** The first word is the text between leading blanks and the next blank; there is none exactly when all is blank. */
  lemma {:induction false} FirstWordIs(blanks: string, word: string, rest: string)
    requires Blank(blanks) && (forall c :: c in word ==> !IsSpace(c)) && (rest != "" ==> IsSpace(rest[0]))
    ensures word != "" ==> FirstWord(blanks + word + rest) == Some(word)
    decreases |blanks|
  {
    var s := blanks + word + rest;
    if blanks != "" {
      assert s[0] == blanks[0] && s[1..] == blanks[1..] + word + rest;
      FirstWordIs(blanks[1..], word, rest);
    } else if word != "" {
      assert s == word + rest && s[0] == word[0];
      WordEnds(word, rest);
    }
  }

  lemma {:induction false} WordEnds(word: string, rest: string)
    requires (forall c :: c in word ==> !IsSpace(c)) && (rest != "" ==> IsSpace(rest[0]))
    ensures UpToSpace(word + rest) == word
  {
    var s := word + rest;
    if word == "" {
      assert s == rest;
    } else {
      assert s[0] == word[0] && s[1..] == word[1..] + rest;
      WordEnds(word[1..], rest);
    }
  }

  lemma {:induction false} NoWordIffBlank(s: string)
    ensures FirstWord(s).None? <==> Blank(s)
  {
    if s != "" {
      NoWordIffBlank(s[1..]);
      assert Blank(s) <==> IsSpace(s[0]) && Blank(s[1..]);
    }
  }

  predicate StartsTool(l: Line) { StartsWith(l.message, START) }

  function ToolOf(l: Line): Option<string>
    requires StartsTool(l)
  {
    FirstWord(l.message[|START|..])
  }

  /** A tool start without a tool name, on which the parser fails. */
  predicate Malformed(l: Line) { StartsTool(l) && ToolOf(l).None? }

  /** The tools the session has started, in order. */
  function Calls(lines: seq<Line>, session: string): seq<string> {
    if lines == [] then []
    else
      var l := lines[|lines| - 1];
      Calls(lines[..|lines| - 1], session) +
      if l.session == session && StartsTool(l) && ToolOf(l).Some? then [ToolOf(l).value] else []
  }

  /** They are the tools named on exactly the session's lines that start one, in order. */
  lemma {:induction false} CallsExactly(lines: seq<Line>, session: string) returns (at: seq<nat>)
    ensures forall i: nat :: i in at <==>
              i < |lines| && lines[i].session == session && StartsTool(lines[i]) && ToolOf(lines[i]).Some?
    ensures (forall j, k :: 0 <= j < k < |at| ==> at[j] < at[k]) && |Calls(lines, session)| == |at|
    ensures forall j :: 0 <= j < |at| ==>
              at[j] < |lines| && StartsTool(lines[at[j]]) && Some(Calls(lines, session)[j]) == ToolOf(lines[at[j]])
  {
    at := [];
    if lines != [] {
      var n := |lines| - 1;
      at := CallsExactly(lines[..n], session);
      if lines[n].session == session && StartsTool(lines[n]) && ToolOf(lines[n]).Some? { at := at + [n]; }
    }
  }

  /** The numbers of the lines on which the session started one of `tools`. */
  function LinesOf(lines: seq<Line>, session: string, tools: set<string>): seq<nat> {
    if lines == [] then []
    else
      var l := lines[|lines| - 1];
      LinesOf(lines[..|lines| - 1], session, tools) +
      if l.session == session && StartsTool(l) && ToolOf(l).Some? && ToolOf(l).value in tools then [l.number] else []
  }

  /** What the parser should have for `session`. */
  function Bucket(lines: seq<Line>, session: string): Session {
    Session(Calls(lines, session), LinesOf(lines, session, {SEARCH}), LinesOf(lines, session, {CHECKPOINT}),
            LinesOf(lines, session, WRITE_TOOLS))
  }

  /** The bucket updates of one tool start. */
  function Started(s: Session, number: nat, tool: string): Session {
    Session(s.toolCalls + [tool],
            if tool == SEARCH then s.searches + [number] else s.searches,
            if tool == CHECKPOINT then s.checkpoints + [number] else s.checkpoints,
            if tool in WRITE_TOOLS then s.writes + [number] else s.writes)
  }

  ghost predicate WellFormed(lines: seq<Line>) { forall l :: l in lines ==> !Malformed(l) }

  ghost predicate Parsed(lines: seq<Line>, sessions: map<string, Session>) {
    (forall l :: l in lines ==> l.session in sessions) &&
    forall id :: id in sessions ==> Seen(lines, id) && sessions[id] == Bucket(lines, id)
  }

  ghost predicate Seen(lines: seq<Line>, session: string) { exists l :: l in lines && l.session == session }

  /** `_parse_log`, from the matched lines on; `ok` is false for the `IndexError`. */
  method ParseLog(lines: seq<Line>) returns (ok: bool, sessions: map<string, Session>)
    ensures ok <==> WellFormed(lines)
    ensures ok ==> Parsed(lines, sessions)
  {
    sessions := map[];
    var i := 0;
    while i < |lines|
      invariant 0 <= i <= |lines|
      invariant WellFormed(lines[..i])
      invariant Parsed(lines[..i], sessions)
    {
      var l := lines[i];
      ghost var before := sessions;
      if l.session !in sessions {
        sessions := sessions[l.session := Session([], [], [], [])];
      }
      if StartsTool(l) {
        var tool := ToolOf(l);
        if tool.None? {
          assert Malformed(l);
          return false, sessions;
        }
        sessions := sessions[l.session := Started(sessions[l.session], l.number, tool.value)];
      }
      ParsedNext(lines, i, before, sessions);
      i := i + 1;
    }
    assert lines[..i] == lines;
    ok := true;
  }

  /** The sessions after one more line. */
  function Noted(sessions: map<string, Session>, l: Line): map<string, Session> {
    var s := if l.session in sessions then sessions[l.session] else Session([], [], [], []);
    sessions[l.session := if StartsTool(l) && ToolOf(l).Some? then Started(s, l.number, ToolOf(l).value) else s]
  }

  lemma ParsedNext(lines: seq<Line>, i: nat, before: map<string, Session>, after: map<string, Session>)
    requires i < |lines| && Parsed(lines[..i], before) && after == Noted(before, lines[i])
    requires WellFormed(lines[..i]) && !Malformed(lines[i])
    ensures Parsed(lines[..i + 1], after) && WellFormed(lines[..i + 1])
  {
    var l, seen := lines[i], lines[..i];
    assert lines[..i + 1] == seen + [l] && lines[..i + 1][..i] == seen;
    forall id | id in after ensures Seen(seen + [l], id) && after[id] == Bucket(seen + [l], id) {
      SeenNext(seen, l, id);
      if id !in before { NobodyYet(seen, id); }
      BucketNext(seen, l, id);
    }
  }

  lemma SeenNext(seen: seq<Line>, l: Line, id: string)
    ensures Seen(seen + [l], id) <==> Seen(seen, id) || l.session == id
  {
    assert forall k :: k in seen + [l] <==> k in seen || k == l;
  }

  lemma BucketNext(seen: seq<Line>, l: Line, id: string)
    ensures var b := Bucket(seen, id);
      Bucket(seen + [l], id) ==
      if l.session == id && StartsTool(l) && ToolOf(l).Some? then Started(b, l.number, ToolOf(l).value) else b
  {
    assert (seen + [l])[..|seen|] == seen;
  }

  lemma {:induction false} NobodyYet(lines: seq<Line>, session: string)
    requires !Seen(lines, session)
    ensures Bucket(lines, session) == Session([], [], [], [])
  {
    if lines != [] {
      SeenNext(lines[..|lines| - 1], lines[|lines| - 1], session);
      assert lines[..|lines| - 1] + [lines[|lines| - 1]] == lines;
      NobodyYet(lines[..|lines| - 1], session);
    }
  }

  function Count(s: seq<string>, x: string): (n: nat)
    ensures n <= |s|
  {
    if s == [] then 0 else Count(s[..|s| - 1], x) + if s[|s| - 1] == x then 1 else 0
  }

  /** The parser keeps one line number for each call of a tool it tracks. */
  lemma {:induction false} OneLineEach(lines: seq<Line>, session: string, tool: string)
    ensures |LinesOf(lines, session, {tool})| == Count(Calls(lines, session), tool)
  {
    if lines != [] {
      var pre, l := lines[..|lines| - 1], lines[|lines| - 1];
      OneLineEach(pre, session, tool);
      if l.session == session && StartsTool(l) && ToolOf(l).Some? {
        var name := ToolOf(l).value;
        assert (Calls(pre, session) + [name])[..|Calls(pre, session)|] == Calls(pre, session);
      } else {
        assert Calls(lines, session) == Calls(pre, session);
      }
    }
  }

  // ---------------------------------------------------------------------------------------------
  // Web search hit rate
  // ---------------------------------------------------------------------------------------------

  /** A call right after a search that shows the search was of use. */
  predicate Useful(tool: string) { tool !in DISCOVERY_TOOLS && tool != SEARCH }

  /** One of the five calls after position `i` is of use. */
  predicate Hit(calls: seq<string>, i: nat)
  {
    exists j :: i < j < |calls| && j <= i + 5 && Useful(calls[j])
  }

  /** `calls.index(SEARCH, start)`; `None` is the `ValueError`. */
  function IndexFrom(calls: seq<string>, start: nat): (r: Option<nat>)
    ensures r.Some? ==> start <= r.value < |calls| && calls[r.value] == SEARCH &&
                        forall j :: start <= j < r.value ==> calls[j] != SEARCH
    ensures r.None? ==> forall j :: start <= j < |calls| ==> calls[j] != SEARCH
    decreases |calls| - start
  {
    if start >= |calls| then None
    else if calls[start] == SEARCH then Some(start)
    else IndexFrom(calls, start + 1)
  }

  /** The positions of all searches, in order. */
  function Positions(calls: seq<string>): (ps: seq<nat>)
    ensures |ps| == Count(calls, SEARCH)
    ensures forall k :: 0 <= k < |ps| ==> ps[k] < |calls|
  {
    if calls == [] then []
    else
      var n := |calls| - 1;
      Positions(calls[..n]) + if calls[n] == SEARCH then [n] else []
  }

  /** They are exactly the positions of searches, each once. */
  lemma {:induction false} PositionsAreTheSearches(calls: seq<string>)
    ensures var ps := Positions(calls);
      (forall k :: 0 <= k < |ps| ==> calls[ps[k]] == SEARCH) &&
      (forall j, k :: 0 <= j < k < |ps| ==> ps[j] < ps[k]) &&
      (forall i :: 0 <= i < |calls| && calls[i] == SEARCH ==> i in ps)
  {
    if calls != [] {
      var n := |calls| - 1;
      PositionsAreTheSearches(calls[..n]);
      var ps := Positions(calls);
      if calls[n] == SEARCH { assert ps[|ps| - 1] == n; }
      forall i | 0 <= i < |calls| && calls[i] == SEARCH ensures i in ps {
        if i < n { assert calls[..n][i] == SEARCH && i in Positions(calls[..n]); }
      }
    }
  }

  /** Where the scan looks from in its `k`-th round. */
  function ScanStart(calls: seq<string>, k: nat): nat
    requires k <= |Positions(calls)|
  {
    if k == 0 then 0 else Positions(calls)[k - 1] + 1
  }

  /** The k-th round of the scan finds the k-th search. */
  lemma ScanFindsNext(calls: seq<string>, k: nat)
    requires k <= |Positions(calls)|
    ensures IndexFrom(calls, ScanStart(calls, k)) == if k < |Positions(calls)| then Some(Positions(calls)[k]) else None
  {
    var ps, r := Positions(calls), IndexFrom(calls, ScanStart(calls, k));
    PositionsAreTheSearches(calls);
    if k < |ps| {
      assert k > 0 ==> ps[k - 1] < ps[k];
      assert calls[ps[k]] == SEARCH && ScanStart(calls, k) <= ps[k];
    }
    if r.Some? {
      var m :| 0 <= m < |ps| && ps[m] == r.value;
      assert m >= k;
    }
  }

  /** How many of the first `k` searches were hits. */
  function Hits(calls: seq<string>, k: nat): (h: nat)
    requires k <= |Positions(calls)|
    ensures h <= k
  {
    if k == 0 then 0 else Hits(calls, k - 1) + if Hit(calls, Positions(calls)[k - 1]) then 1 else 0
  }

  function Least(a: nat, b: nat): nat { if a <= b then a else b }

  /** `_compute_wshr`: one round for each recorded search line. */
  method ComputeWshr(calls: seq<string>, searches: seq<nat>) returns (score: Option<real>)
    ensures score.None? <==> searches == []
    ensures searches != [] ==> score.value == Percent(HitsIn(calls, |searches|), |searches|)
  {
    if searches == [] {
      return None;
    }
    var hits := 0;
    var start := 0;
    var k := 0;
    while k < |searches|
      invariant 0 <= k <= |searches|
      invariant start == StartOf(calls, k)
      invariant hits == HitsIn(calls, k)
    {
      RoundNext(calls, k);
      var idx := IndexFrom(calls, start);
      if idx.Some? {
        start := idx.value + 1;
        var hit := AnyUseful(calls, idx.value);
        if hit {
          hits := hits + 1;
        }
      }
      k := k + 1;
    }
    score := Some(Percent(hits, |searches|));
  }

  /** The test of the five calls that follow. */
  method AnyUseful(calls: seq<string>, idx: nat) returns (hit: bool)
    requires idx < |calls|
    ensures hit <==> Hit(calls, idx)
  {
    var end := if idx + 6 < |calls| then idx + 6 else |calls|;
    var subsequent := calls[idx + 1..end];
    for k := 0 to |subsequent|
      invariant forall j :: 0 <= j < k ==> !Useful(subsequent[j])
    {
      if subsequent[k] !in DISCOVERY_TOOLS && subsequent[k] != SEARCH {
        assert Useful(calls[idx + 1 + k]);
        return true;
      }
    }
    assert forall j :: idx < j < end ==> calls[j] == subsequent[j - idx - 1];
    hit := false;
  }

  function Percent(part: nat, whole: nat): (r: real)
    requires whole > 0
    ensures r * whole as real == 100.0 * part as real
  {
    part as real / whole as real * 100.0
  }

  /** After `k` rounds: where the next one starts, and the hits so far. Rounds that find nothing change neither. */
  function StartOf(calls: seq<string>, k: nat): nat { ScanStart(calls, Least(k, |Positions(calls)|)) }

  function HitsIn(calls: seq<string>, k: nat): nat { Hits(calls, Least(k, |Positions(calls)|)) }

  lemma RoundNext(calls: seq<string>, k: nat)
    ensures var r := IndexFrom(calls, StartOf(calls, k));
      StartOf(calls, k + 1) == (if r.Some? then r.value + 1 else StartOf(calls, k)) &&
      HitsIn(calls, k + 1) == HitsIn(calls, k) + if r.Some? && Hit(calls, r.value) then 1 else 0
  {
    ScanFindsNext(calls, Least(k, |Positions(calls)|));
  }

  /** The searches that were hits, as a set of positions. */
  ghost function HitSet(calls: seq<string>, below: nat): set<nat> {
    set i: nat | i < below && i < |calls| && calls[i] == SEARCH && Hit(calls, i)
  }

  ghost function HitCount(calls: seq<string>, k: nat): nat
    requires k <= |Positions(calls)|
  {
    |HitSet(calls, ScanStart(calls, k))|
  }

  lemma {:induction false} HitsUpTo(calls: seq<string>, k: nat)
    requires k <= |Positions(calls)|
    ensures Hits(calls, k) == HitCount(calls, k)
  {
    if k == 0 {
      NoHitsYet(calls);
    } else {
      HitsUpTo(calls, k - 1);
      HitSetRound(calls, k - 1);
    }
  }

  lemma NoHitsYet(calls: seq<string>)
    ensures HitCount(calls, 0) == 0
  {
    assert HitSet(calls, 0) == {};
  }

  lemma HitSetRound(calls: seq<string>, k: nat)
    requires k < |Positions(calls)|
    ensures HitCount(calls, k + 1) == HitCount(calls, k) + if Hit(calls, Positions(calls)[k]) then 1 else 0
  {
    ScanFindsNext(calls, k);
    HitSetNext(calls, ScanStart(calls, k), Positions(calls)[k]);
  }

  lemma HitSetNext(calls: seq<string>, start: nat, p: nat)
    requires start <= p < |calls| && calls[p] == SEARCH && forall j :: start <= j < p ==> calls[j] != SEARCH
    ensures |HitSet(calls, p + 1)| == |HitSet(calls, start)| + if Hit(calls, p) then 1 else 0
  {
    var rest := HitSet(calls, start);
    assert HitSet(calls, p + 1) == if Hit(calls, p) then rest + {p} else rest;
  }

  /** On parsed data every round finds a search, and the score is the share of the searches that are followed,
      within five calls, by a call of use. */
  lemma HitRateIsTheFraction(lines: seq<Line>, session: string)
    ensures var b := Bucket(lines, session);
      |b.searches| == |Positions(b.toolCalls)| &&
      Hits(b.toolCalls, |b.searches|) == |HitSet(b.toolCalls, |b.toolCalls|)| &&
      (b.searches != [] ==>
         Percent(HitsIn(b.toolCalls, |b.searches|), |b.searches|)
         == Percent(|HitSet(b.toolCalls, |b.toolCalls|)|, Count(b.toolCalls, SEARCH))) &&
      forall k :: 0 <= k < |b.searches| ==> IndexFrom(b.toolCalls, ScanStart(b.toolCalls, k)) == Some(Positions(b.toolCalls)[k])
  {
    var b := Bucket(lines, session);
    OneLineEach(lines, session, SEARCH);
    var n := |b.searches|;
    HitsUpTo(b.toolCalls, n);
    ScanFindsNext(b.toolCalls, n);
    assert HitSet(b.toolCalls, ScanStart(b.toolCalls, n)) == HitSet(b.toolCalls, |b.toolCalls|);
    forall k | 0 <= k < n ensures IndexFrom(b.toolCalls, ScanStart(b.toolCalls, k)) == Some(Positions(b.toolCalls)[k]) {
      ScanFindsNext(b.toolCalls, k);
    }
  }

  // ---------------------------------------------------------------------------------------------
  // Research before action
  // ---------------------------------------------------------------------------------------------

  /** The first call that is not discovery is a search. */
  ghost predicate ResearchedFirst(calls: seq<string>) {
    exists i :: 0 <= i < |calls| && calls[i] == SEARCH && forall j :: 0 <= j < i ==> calls[j] in DISCOVERY_TOOLS
  }

  /** `_compute_rba`. A search is itself no discovery call, so a session with a search always has a first
      action, and the branch that gives no score after a search is never taken. */
  method ComputeRba(calls: seq<string>) returns (score: Option<real>)
    ensures score.None? <==> calls == []
    ensures calls != [] ==> score.value == if ResearchedFirst(calls) then 100.0 else 0.0
  {
    if calls == [] {
      return None;
    }
    var search: Option<nat> := None;
    var action: Option<nat> := None;
    for i := 0 to |calls|
      invariant search.None? ==> forall j :: 0 <= j < i ==> calls[j] != SEARCH
      invariant search.Some? ==> search.value < i && calls[search.value] == SEARCH &&
                                 forall j :: 0 <= j < search.value ==> calls[j] != SEARCH
      invariant action.None? ==> forall j :: 0 <= j < i ==> calls[j] in DISCOVERY_TOOLS
      invariant action.Some? ==> action.value < i && calls[action.value] !in DISCOVERY_TOOLS &&
                                 forall j :: 0 <= j < action.value ==> calls[j] in DISCOVERY_TOOLS
    {
      if calls[i] == SEARCH && search.None? { search := Some(i); }
      if calls[i] !in DISCOVERY_TOOLS && action.None? { action := Some(i); }
    }
    SearchIsNoDiscovery();
    if search.None? {
      return Some(0.0);
    }
    if action.None? {
      assert false;
      return None;
    }
    score := Some(if search.value <= action.value then 100.0 else 0.0);
  }

  lemma SearchIsNoDiscovery()
    ensures SEARCH !in DISCOVERY_TOOLS
  {
  }

  // ---------------------------------------------------------------------------------------------
  // Context retention
  // ---------------------------------------------------------------------------------------------

  /** The discovery tools called more than twice. */
  ghost function Repeated(calls: seq<string>): set<string> { set t | t in DISCOVERY_TOOLS && Count(calls, t) > 2 }

  ghost predicate Counts(counts: map<string, nat>, calls: seq<string>) {
    forall t :: (t in counts <==> t in DISCOVERY_TOOLS && t in calls) && (t in counts ==> counts[t] == Count(calls, t))
  }

  /** `_compute_crs`: the more of the discovery tools were called again and again, for each checkpoint, the less. */
  method ComputeCrs(calls: seq<string>, checkpoints: seq<nat>) returns (score: Option<real>)
    ensures score.None? <==> calls == [] || checkpoints == []
    ensures score.Some? ==> score.value == RetentionScore(|Repeated(calls)|, |checkpoints|)
  {
    if calls == [] || checkpoints == [] {
      return None;
    }
    var counts: map<string, nat> := map[];
    var i := 0;
    while i < |calls|
      invariant 0 <= i <= |calls|
      invariant Counts(counts, calls[..i])
    {
      CountNext(calls, i);
      var tool := calls[i];
      if tool in DISCOVERY_TOOLS {
        counts := counts[tool := (if tool in counts then counts[tool] else 0) + 1];
      }
      i := i + 1;
    }
    assert calls[..i] == calls;
    var violations := 0;
    var left := counts.Keys;
    while left != {}
      invariant left <= counts.Keys
      invariant violations == |Often(counts, left)|
    {
      var tool :| tool in left;
      OftenNext(counts, left, tool);
      if counts[tool] > 2 { violations := violations + 1; }
      left := left - {tool};
    }
    OftenAll(counts, calls);
    score := Some(RetentionScore(violations, |checkpoints|));
  }

  function RetentionScore(violations: nat, decisions: nat): (r: real)
    requires decisions > 0
    ensures r >= 0.0 && (r > 0.0 ==> (100.0 - r) * decisions as real == 100.0 * violations as real)
  {
    var score := 100.0 - Percent(violations, decisions);
    if score < 0.0 then 0.0 else score
  }

  /** The tools counted more than twice among those no longer `left`. */
  ghost function Often(counts: map<string, nat>, left: set<string>): set<string> {
    set t | t in counts && t !in left && counts[t] > 2
  }

  lemma OftenNext(counts: map<string, nat>, left: set<string>, tool: string)
    requires tool in left && left <= counts.Keys
    ensures |Often(counts, left - {tool})| == |Often(counts, left)| + if counts[tool] > 2 then 1 else 0
  {
    var before := Often(counts, left);
    assert Often(counts, left - {tool}) == if counts[tool] > 2 then before + {tool} else before;
  }

  lemma OftenAll(counts: map<string, nat>, calls: seq<string>)
    requires Counts(counts, calls)
    ensures Often(counts, {}) == Repeated(calls)
  {
    forall t ensures t in Often(counts, {}) <==> t in Repeated(calls) {
      CountPositive(calls, t);
    }
  }

  lemma {:induction false} CountPositive(s: seq<string>, x: string)
    ensures Count(s, x) > 0 <==> x in s
  {
    if s != [] { CountPositive(s[..|s| - 1], x); }
  }

  lemma CountNext(calls: seq<string>, i: nat)
    requires i < |calls|
    ensures forall t :: Count(calls[..i + 1], t) == Count(calls[..i], t) + if calls[i] == t then 1 else 0
    ensures forall t :: t in calls[..i + 1] <==> t in calls[..i] || t == calls[i]
    ensures calls[i] !in calls[..i] ==> Count(calls[..i], calls[i]) == 0
  {
    assert calls[..i + 1][..i] == calls[..i];
    CountPositive(calls[..i], calls[i]);
  }

  // ---------------------------------------------------------------------------------------------
  // The composite score
  // ---------------------------------------------------------------------------------------------

  datatype Metric = Metric(weight: real, score: Option<real>)

  /** The metrics that count, with their weights. */
  function Metrics(tce: Option<real>, cd: Option<real>, rba: Option<real>, ttfpa: Option<real>, wshr: Option<real>,
                   crs: Option<real>): seq<Metric> {
    [Metric(0.15, tce), Metric(0.10, cd), Metric(0.15, rba), Metric(0.05, ttfpa), Metric(0.05, wshr), Metric(0.05, crs)]
  }

  /** The weight of the metrics that have a score. */
  function TotalWeight(ms: seq<Metric>): real {
    if ms == [] then 0.0
    else TotalWeight(ms[..|ms| - 1]) + if ms[|ms| - 1].score.Some? then ms[|ms| - 1].weight else 0.0
  }

  function WeightedSum(ms: seq<Metric>): real {
    if ms == [] then 0.0
    else
      var m := ms[|ms| - 1];
      WeightedSum(ms[..|ms| - 1]) + if m.score.Some? then m.score.value * m.weight else 0.0
  }

  function Composite(ms: seq<Metric>): Option<real> {
    if TotalWeight(ms) > 0.0 then Some(WeightedSum(ms) / TotalWeight(ms)) else None
  }

  ghost predicate Between(ms: seq<Metric>, low: real, high: real) {
    forall m :: m in ms ==> m.weight > 0.0 && (m.score.Some? ==> low <= m.score.value <= high)
  }

  /** The composite is a mean of the scores there are: it lies between the smallest and the largest, and it is
      missing exactly when every score is. */
  lemma CompositeIsAMean(ms: seq<Metric>, low: real, high: real)
    requires Between(ms, low, high)
    ensures Composite(ms).None? <==> forall m :: m in ms ==> m.score.None?
    ensures Composite(ms).Some? ==> low <= Composite(ms).value <= high
  {
    SumBetween(ms, low, high);
    NoWeightIff(ms);
    var w := TotalWeight(ms);
    if w > 0.0 {
      Quotient(WeightedSum(ms), w, low, high);
    }
  }

  predicate Percentage(score: Option<real>) { score.Some? ==> 0.0 <= score.value <= 100.0 }

  /** With the weights in use, percentages give a percentage. */
  lemma CompositeOfPercentages(tce: Option<real>, cd: Option<real>, rba: Option<real>, ttfpa: Option<real>,
                               wshr: Option<real>, crs: Option<real>)
    requires Percentage(tce) && Percentage(cd) && Percentage(rba) && Percentage(ttfpa) && Percentage(wshr) && Percentage(crs)
    ensures var c := Composite(Metrics(tce, cd, rba, ttfpa, wshr, crs));
      Percentage(c) &&
      (c.None? <==> tce.None? && cd.None? && rba.None? && ttfpa.None? && wshr.None? && crs.None?)
  {
    var ms := Metrics(tce, cd, rba, ttfpa, wshr, crs);
    assert ms[0].score == tce && ms[1].score == cd && ms[2].score == rba && ms[3].score == ttfpa && ms[4].score == wshr &&
      ms[5].score == crs;
    CompositeIsAMean(ms, 0.0, 100.0);
  }

  lemma Quotient(sum: real, w: real, low: real, high: real)
    requires w > 0.0 && MeanBetween(sum, w, low, high)
    ensures low <= sum / w <= high
  {
    var q := sum / w;
    assert q * w == sum;
    if q < low {
      Scaled(q, low, w);
      assert false;
    }
    if q > high {
      Scaled(high, q, w);
      assert false;
    }
  }

  lemma Scaled(a: real, b: real, w: real)
    requires w > 0.0
    ensures a < b ==> a * w < b * w
    ensures a <= b ==> a * w <= b * w
  {
    assert (b - a) * w == b * w - a * w;
  }

  ghost predicate MeanBetween(sum: real, total: real, low: real, high: real) { low * total <= sum <= high * total }

  lemma OneScoreMore(low: real, high: real, sum: real, total: real, score: real, w: real, sum': real, total': real)
    requires MeanBetween(sum, total, low, high) && low <= score <= high && w > 0.0
    requires sum' == sum + score * w && total' == total + w
    ensures MeanBetween(sum', total', low, high)
  {
    Scaled(low, score, w);
    Scaled(score, high, w);
    assert low * total' == low * total + low * w;
    assert high * total' == high * total + high * w;
  }

  lemma {:induction false} SumBetween(ms: seq<Metric>, low: real, high: real)
    requires Between(ms, low, high)
    ensures MeanBetween(WeightedSum(ms), TotalWeight(ms), low, high)
  {
    if ms != [] {
      var pre, m := ms[..|ms| - 1], ms[|ms| - 1];
      assert m in ms && forall x :: x in pre ==> x in ms;
      SumBetween(pre, low, high);
      if m.score.Some? {
        OneScoreMore(low, high, WeightedSum(pre), TotalWeight(pre), m.score.value, m.weight, WeightedSum(ms), TotalWeight(ms));
      }
    }
  }

  lemma {:induction false} NoWeightIff(ms: seq<Metric>)
    requires forall m :: m in ms ==> m.weight > 0.0
    ensures TotalWeight(ms) >= 0.0
    ensures TotalWeight(ms) == 0.0 <==> forall m :: m in ms ==> m.score.None?
  {
    if ms != [] {
      var pre, m := ms[..|ms| - 1], ms[|ms| - 1];
      NoWeightIff(pre);
      assert forall x :: x in ms <==> x in pre || x == m;
    }
  }

  // ---------------------------------------------------------------------------------------------
  // All scores of one log
  // ---------------------------------------------------------------------------------------------

  /** `ttfpa` is the round of the first productive call; the others are percentages. */
  datatype Scores = Scores(tce: Option<real>, cd: Option<real>, rba: Option<real>, ttfpa: Option<nat>, wshr: Option<real>,
                           crs: Option<real>, composite: Option<real>)

  datatype Outcome = ParseError | NoData | Scored(session: string, scores: Scores)

  lemma PercentRange(part: nat, whole: nat)
    requires whole > 0 && part <= whole
    ensures 0.0 <= Percent(part, whole) <= 100.0
  {
    var q := part as real / whole as real;
    assert q * whole as real == part as real;
    if q < 0.0 {
      Scaled(q, 0.0, whole as real);
      assert false;
    }
    if q > 1.0 {
      Scaled(1.0, q, whole as real);
      assert false;
    }
  }

  function CountOther(s: seq<string>, tools: set<string>): (n: nat)
    ensures n <= |s|
  {
    if s == [] then 0 else CountOther(s[..|s| - 1], tools) + if s[|s| - 1] !in tools then 1 else 0
  }

  /** The positions of the calls of `tools`. */
  ghost function Places(calls: seq<string>, tools: set<string>): set<nat> {
    set i: nat | i < |calls| && calls[i] in tools
  }

  lemma {:induction false} CountsArePlaces(calls: seq<string>, tools: set<string>, tool: string)
    ensures CountOther(calls, tools) == |calls| - |Places(calls, tools)| && Count(calls, tool) == |Places(calls, {tool})|
  {
    if calls != [] {
      CountsArePlaces(calls[..|calls| - 1], tools, tool);
      OnePlaceMore(calls, tools);
      OnePlaceMore(calls, {tool});
    }
  }

  lemma OnePlaceMore(calls: seq<string>, tools: set<string>)
    requires calls != []
    ensures var n := |calls| - 1;
      |Places(calls, tools)| == |Places(calls[..n], tools)| + if calls[n] in tools then 1 else 0
  {
    var n := |calls| - 1;
    var before := Places(calls[..n], tools);
    assert Places(calls, tools) == if calls[n] in tools then before + {n} else before;
  }

  /** `_compute_tce_proxy`. */
  function ComputeTce(calls: seq<string>): Option<real> {
    if calls == [] then None else Some(Percent(CountOther(calls, DISCOVERY_TOOLS), |calls|))
  }

  /** `_compute_cd`. */
  function ComputeCd(calls: seq<string>): Option<real> {
    if calls == [] then None else Some(Percent(Count(calls, CHECKPOINT), |calls|))
  }

  /** `_compute_ttfpa`: one more than the position of the first productive call. */
  method ComputeTtfpa(calls: seq<string>) returns (round: Option<nat>)
    ensures FirstProductive(calls, round)
  {
    for i := 0 to |calls|
      invariant forall j :: 0 <= j < i ==> calls[j] !in PRODUCTIVE_TOOLS
    {
      if calls[i] in PRODUCTIVE_TOOLS {
        return Some(i + 1);
      }
    }
    round := None;
  }

  /** What the round counts for in the composite. */
  function RoundScore(round: Option<nat>): (r: Option<real>)
    ensures Percentage(r) && (r.None? <==> round.None?)
  {
    if round.None? then None
    else if round.value >= 10 then Some(0.0) else Some((10 - round.value) as real * 10.0)
  }

  /** The session with the most tool calls. */
  method PrimarySession(sessions: map<string, Session>) returns (id: string)
    requires sessions != map[]
    ensures id in sessions && forall k :: k in sessions ==> |sessions[k].toolCalls| <= |sessions[id].toolCalls|
  {
    var left := sessions.Keys;
    id :| id in left;
    left := left - {id};
    while left != {}
      invariant left <= sessions.Keys && id in sessions
      invariant forall k :: k in sessions && k !in left ==> |sessions[k].toolCalls| <= |sessions[id].toolCalls|
    {
      var k :| k in left;
      left := left - {k};
      if |sessions[k].toolCalls| > |sessions[id].toolCalls| { id := k; }
    }
  }

  /** The shares of calls that are not discovery and that are checkpoints. */
  ghost predicate SharesOk(calls: seq<string>, tce: Option<real>, cd: Option<real>) {
    if calls == [] then tce.None? && cd.None?
    else
      ShareOk(tce, |calls| - |Places(calls, DISCOVERY_TOOLS)|, |calls|) && ShareOk(cd, |Places(calls, {CHECKPOINT})|, |calls|)
  }

  /** A share in percent. */
  predicate ShareOk(score: Option<real>, part: int, whole: int) {
    score.Some? && score.value * whole as real == 100.0 * part as real
  }

  ghost predicate FirstProductive(calls: seq<string>, round: Option<nat>) {
    (round.None? <==> forall t :: t in calls ==> t !in PRODUCTIVE_TOOLS) &&
    (round.Some? ==>
       1 <= round.value <= |calls| && calls[round.value - 1] in PRODUCTIVE_TOOLS &&
       forall j :: 0 <= j < round.value - 1 ==> calls[j] !in PRODUCTIVE_TOOLS)
  }

  /** What a score weighs, and contributes, in the composite. */
  function Weight(score: Option<real>, weight: real): real { if score.Some? then weight else 0.0 }

  function Share(score: Option<real>, weight: real): real { if score.Some? then score.value * weight else 0.0 }

  /** A first productive call in round r counts for ten points for each round below ten. */
  function Points(round: Option<nat>): Option<real> {
    if round.None? then None else Some(if round.value < 10 then 100.0 - 10.0 * round.value as real else 0.0)
  }

  function WeightsThere(s: Scores): real {
    Weight(s.tce, 0.15) + Weight(s.cd, 0.10) + Weight(s.rba, 0.15) + Weight(Points(s.ttfpa), 0.05) + Weight(s.wshr, 0.05) +
    Weight(s.crs, 0.05)
  }

  function SharesThere(s: Scores): real {
    Share(s.tce, 0.15) + Share(s.cd, 0.10) + Share(s.rba, 0.15) + Share(Points(s.ttfpa), 0.05) + Share(s.wshr, 0.05) +
    Share(s.crs, 0.05)
  }

  /** The composite is the weighted mean of the scores there are. */
  ghost predicate CompositeOk(s: Scores) {
    s.composite.Some? ==> WeightsThere(s) > 0.0 && s.composite.value == SharesThere(s) / WeightsThere(s)
  }

  /** What is promised of the scores of a session: each is told from its calls, the hit rate being the share of its
      searches that were hits, and the composite is a percentage, missing exactly when the session called no tool. */
  ghost predicate ScoresOk(calls: seq<string>, s: Scores) {
    SharesOk(calls, s.tce, s.cd) && FirstProductive(calls, s.ttfpa) && CompositeOk(s) &&
    s.wshr == (if Count(calls, SEARCH) > 0 then Some(Percent(|HitSet(calls, |calls|)|, Count(calls, SEARCH))) else None) &&
    s.rba == (if calls == [] then None else Some(if ResearchedFirst(calls) then 100.0 else 0.0)) &&
    s.crs == (if Count(calls, CHECKPOINT) > 0 then Some(RetentionScore(|Repeated(calls)|, Count(calls, CHECKPOINT))) else None) &&
    Percentage(s.composite) && (s.composite.None? <==> calls == [])
  }

  /** `compute_session_metrics`, from the matched lines on. */
  method ComputeSessionMetrics(lines: seq<Line>) returns (r: Outcome)
    ensures r.ParseError? <==> !WellFormed(lines)
    ensures r.NoData? <==> lines == []
    ensures r.Scored? ==> Seen(lines, r.session) && ScoresOk(Calls(lines, r.session), r.scores)
    ensures r.Scored? ==> forall id :: Seen(lines, id) ==> |Calls(lines, id)| <= |Calls(lines, r.session)|
  {
    var ok, sessions := ParseLog(lines);
    if !ok { return ParseError; }
    LinesHaveSessions(lines, sessions);
    if sessions == map[] { return NoData; }
    var id := PrimarySession(sessions);
    var calls := sessions[id].toolCalls;
    var tce, cd := ComputeTce(calls), ComputeCd(calls);
    var rba := ComputeRba(calls);
    var ttfpa := ComputeTtfpa(calls);
    var wshr := ComputeWshr(calls, sessions[id].searches);
    var crs := ComputeCrs(calls, sessions[id].checkpoints);
    var composite := Composite(Metrics(tce, cd, rba, RoundScore(ttfpa), wshr, crs));
    ScoresAreOk(lines, id, rba, ttfpa, wshr, crs, composite);
    r := Scored(id, Scores(tce, cd, rba, ttfpa, wshr, crs, composite));
  }

  lemma LinesHaveSessions(lines: seq<Line>, sessions: map<string, Session>)
    requires Parsed(lines, sessions)
    ensures lines == [] <==> sessions == map[]
  {
    if lines != [] { assert lines[0] in lines && lines[0].session in sessions; }
    if sessions != map[] {
      var id :| id in sessions;
      assert Seen(lines, id);
    }
  }

  lemma ScoresAreOk(lines: seq<Line>, id: string, rba: Option<real>, ttfpa: Option<nat>, wshr: Option<real>, crs: Option<real>,
                    composite: Option<real>)
    requires var b := Bucket(lines, id);
      (rba == if b.toolCalls == [] then None else Some(if ResearchedFirst(b.toolCalls) then 100.0 else 0.0)) &&
      (wshr == if b.searches == [] then None else Some(Percent(HitsIn(b.toolCalls, |b.searches|), |b.searches|))) &&
      (crs == if b.toolCalls == [] || b.checkpoints == [] then None
              else Some(RetentionScore(|Repeated(b.toolCalls)|, |b.checkpoints|))) &&
      composite == Composite(Metrics(ComputeTce(b.toolCalls), ComputeCd(b.toolCalls), rba, RoundScore(ttfpa), wshr, crs))
    requires FirstProductive(Calls(lines, id), ttfpa)
    ensures var calls := Calls(lines, id);
      ScoresOk(calls, Scores(ComputeTce(calls), ComputeCd(calls), rba, ttfpa, wshr, crs, composite))
  {
    var b := Bucket(lines, id);
    var calls := b.toolCalls;
    OneLineEach(lines, id, SEARCH);
    OneLineEach(lines, id, CHECKPOINT);
    HitRateIsTheFraction(lines, id);
    if calls != [] {
      PercentRange(CountOther(calls, DISCOVERY_TOOLS), |calls|);
      PercentRange(Count(calls, CHECKPOINT), |calls|);
    }
    if b.searches != [] { PercentRange(HitsIn(calls, |b.searches|), |b.searches|); }
    if b.checkpoints != [] { RetentionRange(|Repeated(calls)|, |b.checkpoints|); }
    CompositeOfPercentages(ComputeTce(calls), ComputeCd(calls), rba, RoundScore(ttfpa), wshr, crs);
    SharesAreOk(calls);
    CompositeIs(Scores(ComputeTce(calls), ComputeCd(calls), rba, ttfpa, wshr, crs, composite));
  }

  lemma ShareIs(part: nat, whole: nat)
    requires whole > 0
    ensures ShareOk(Some(Percent(part, whole)), part, whole)
  {
  }

  lemma SharesAreOk(calls: seq<string>)
    ensures SharesOk(calls, ComputeTce(calls), ComputeCd(calls))
  {
    CountsArePlaces(calls, DISCOVERY_TOOLS, CHECKPOINT);
    if calls != [] {
      ShareIs(CountOther(calls, DISCOVERY_TOOLS), |calls|);
      ShareIs(Count(calls, CHECKPOINT), |calls|);
    }
  }

  lemma OneMetricMore(ms: seq<Metric>, k: nat)
    requires k < |ms|
    ensures TotalWeight(ms[..k + 1]) == TotalWeight(ms[..k]) + Weight(ms[k].score, ms[k].weight)
    ensures WeightedSum(ms[..k + 1]) == WeightedSum(ms[..k]) + Share(ms[k].score, ms[k].weight)
  {
    assert ms[..k + 1][..k] == ms[..k];
  }

  ghost function AllWeights(ms: seq<Metric>): real
    requires |ms| == 6
  {
    Weight(ms[0].score, ms[0].weight) + Weight(ms[1].score, ms[1].weight) + Weight(ms[2].score, ms[2].weight) +
    Weight(ms[3].score, ms[3].weight) + Weight(ms[4].score, ms[4].weight) + Weight(ms[5].score, ms[5].weight)
  }

  ghost function AllShares(ms: seq<Metric>): real
    requires |ms| == 6
  {
    Share(ms[0].score, ms[0].weight) + Share(ms[1].score, ms[1].weight) + Share(ms[2].score, ms[2].weight) +
    Share(ms[3].score, ms[3].weight) + Share(ms[4].score, ms[4].weight) + Share(ms[5].score, ms[5].weight)
  }

  lemma SixMetrics(ms: seq<Metric>)
    requires |ms| == 6
    ensures TotalWeight(ms) == AllWeights(ms) && WeightedSum(ms) == AllShares(ms)
  {
    OneMetricMore(ms, 0);
    OneMetricMore(ms, 1);
    OneMetricMore(ms, 2);
    OneMetricMore(ms, 3);
    OneMetricMore(ms, 4);
    OneMetricMore(ms, 5);
    assert ms[..6] == ms && ms[..0] == [];
  }

  lemma CompositeIs(s: Scores)
    requires s.composite == Composite(Metrics(s.tce, s.cd, s.rba, RoundScore(s.ttfpa), s.wshr, s.crs))
    ensures CompositeOk(s)
  {
    var ms := Metrics(s.tce, s.cd, s.rba, RoundScore(s.ttfpa), s.wshr, s.crs);
    SixMetrics(ms);
    MetricsThere(s, ms);
  }

  lemma MetricsThere(s: Scores, ms: seq<Metric>)
    requires ms == Metrics(s.tce, s.cd, s.rba, RoundScore(s.ttfpa), s.wshr, s.crs)
    ensures |ms| == 6 && AllWeights(ms) == WeightsThere(s) && AllShares(ms) == SharesThere(s)
  {
    PointsAre(s.ttfpa);
    assert ms[0] == Metric(0.15, s.tce) && ms[1] == Metric(0.10, s.cd) && ms[2] == Metric(0.15, s.rba);
    assert ms[3] == Metric(0.05, Points(s.ttfpa)) && ms[4] == Metric(0.05, s.wshr) && ms[5] == Metric(0.05, s.crs);
  }

  lemma PointsAre(round: Option<nat>)
    ensures RoundScore(round) == Points(round)
  {
  }

  lemma RetentionRange(violations: nat, decisions: nat)
    requires decisions > 0
    ensures 0.0 <= RetentionScore(violations, decisions) <= 100.0
  {
    var q := violations as real / decisions as real;
    assert q * decisions as real == violations as real;
    if q < 0.0 {
      Scaled(q, 0.0, decisions as real);
      assert false;
    }
  }
}
