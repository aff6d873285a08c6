/** The append-only audit log (cogtrix_core/audit.py): appending records, reading the last n lines
    backwards in chunks, and querying newest first. */
module AuditTail {
  import opened Options

  newtype Byte = b: int | 0 <= b < 256
  type Bytes = seq<Byte>

  const NEWLINE: Byte := 10
  const CHUNK: nat := 8192

  // ---------------------------------------------------------------------------------------------
  // Splitting at newlines
  // ---------------------------------------------------------------------------------------------

  /** Puts one byte in front of a split text. */
  function PushByte(b: Byte, pieces: seq<Bytes>): (r: seq<Bytes>)
    requires |pieces| >= 1
    ensures |r| >= 1
  {
    if b == NEWLINE then [[]] + pieces else [[b] + pieces[0]] + pieces[1..]
  }

  /** `bytes.split(b"\n")`: k newlines give k + 1 pieces. */
  function Split(s: Bytes): (pieces: seq<Bytes>)
    ensures |pieces| >= 1
  {
    if s == [] then [[]] else PushByte(s[0], Split(s[1..]))
  }

  /** The bytes that `pieces` was split from. */
  function Join(pieces: seq<Bytes>): Bytes
    requires |pieces| >= 1
  {
    if |pieces| == 1 then pieces[0] else pieces[0] + [NEWLINE] + Join(pieces[1..])
  }

  ghost predicate OneLine(line: Bytes) { NEWLINE !in line }

  function Newlines(s: Bytes): nat {
    if s == [] then 0 else (if s[0] == NEWLINE then 1 else 0) + Newlines(s[1..])
  }

  predicate EndsWithNewline(s: Bytes) { |s| > 0 && s[|s| - 1] == NEWLINE }

  function Last<T>(s: seq<T>): T
    requires |s| > 0
  {
    s[|s| - 1]
  }

  lemma {:induction false} JoinSplit(s: Bytes)
    ensures Join(Split(s)) == s
    ensures forall i :: 0 <= i < |Split(s)| ==> OneLine(Split(s)[i])
    ensures |Split(s)| == Newlines(s) + 1
  {
    if s != [] {
      JoinSplit(s[1..]);
      var rest := Split(s[1..]);
      if s[0] == NEWLINE {
        assert Split(s)[1..] == rest;
        assert Join(Split(s)) == [NEWLINE] + s[1..];
      } else {
        assert Split(s)[1..] == rest[1..];
        assert Join(Split(s)) == [s[0]] + Join(rest);
      }
      assert s == [s[0]] + s[1..];
    }
  }

  /** Two split texts put together: only the two pieces that meet at the seam are glued. */
  function Glue(sa: seq<Bytes>, sb: seq<Bytes>): seq<Bytes>
    requires |sa| >= 1 && |sb| >= 1
  {
    sa[..|sa| - 1] + [Last(sa) + sb[0]] + sb[1..]
  }

  lemma PushGlue(b: Byte, sa: seq<Bytes>, sb: seq<Bytes>)
    requires |sa| >= 1 && |sb| >= 1
    ensures PushByte(b, Glue(sa, sb)) == Glue(PushByte(b, sa), sb)
  {
    if b != NEWLINE && |sa| == 1 {
      assert [b] + (sa[0] + sb[0]) == ([b] + sa[0]) + sb[0];
    }
  }

  lemma {:induction false} SplitConcat(a: Bytes, b: Bytes)
    ensures Split(a + b) == Glue(Split(a), Split(b))
  {
    if a == [] {
      assert a + b == b;
      assert [] + Split(b)[0] == Split(b)[0];
    } else {
      SplitConcat(a[1..], b);
      assert (a + b)[1..] == a[1..] + b;
      PushGlue(a[0], Split(a[1..]), Split(b));
    }
  }

  lemma LastPush(b: Byte, pieces: seq<Bytes>)
    requires |pieces| >= 1
    ensures Last(PushByte(b, pieces)) ==
            if |pieces| >= 2 || b == NEWLINE then Last(pieces) else [b] + pieces[0]
  {
  }

  /** The piece before the seam is empty exactly when the first part is empty or ends a line. */
  lemma {:induction false} LastPieceEmpty(s: Bytes)
    ensures Last(Split(s)) == [] <==> s == [] || EndsWithNewline(s)
  {
    if s != [] {
      var t := s[1..];
      LastPieceEmpty(t);
      LastPush(s[0], Split(t));
      assert t != [] ==> EndsWithNewline(s) == EndsWithNewline(t);
      if |Split(t)| == 1 && s[0] != NEWLINE {
        assert Last(Split(t)) == Split(t)[0];
      }
    }
  }

  // ---------------------------------------------------------------------------------------------
  // What the reader should return
  // ---------------------------------------------------------------------------------------------

  /** Drops one trailing empty piece, the one a final newline leaves behind. */
  function DropTrailingEmpty(pieces: seq<Bytes>): seq<Bytes> {
    if |pieces| > 0 && Last(pieces) == [] then pieces[..|pieces| - 1] else pieces
  }

  /** The lines of the whole file. */
  function TrueLines(file: Bytes): seq<Bytes> { DropTrailingEmpty(Split(file)) }

  /** Python's `s[-n:]` for positive n. */
  function LastN<T>(s: seq<T>, n: nat): seq<T> { if |s| > n then s[|s| - n..] else s }

  // ---------------------------------------------------------------------------------------------
  // What the reader does return
  // ---------------------------------------------------------------------------------------------

  /** `raw_lines` once everything from `pos` on has been read; empty before the first read. */
  function Pieces(file: Bytes, pos: nat): seq<Bytes>
    requires pos <= |file|
  {
    if pos == |file| then [] else Split(file[pos..])
  }

  function PieceCount(file: Bytes, pos: nat): (k: nat)
    requires pos <= |file|
  {
    if pos == |file| then 0 else Newlines(file[pos..]) + 1
  }

  lemma PiecesCounted(file: Bytes, pos: nat)
    requires pos <= |file|
    ensures |Pieces(file, pos)| == PieceCount(file, pos)
  {
    JoinSplit(file[pos..]);
  }

  /** The size of the next read: a block, or what is left of the file. */
  function ReadSize(pos: nat, chunk: nat): (r: nat)
    ensures r <= pos
    ensures r <= chunk
    ensures r == chunk || r == pos
  {
    if chunk < pos then chunk else pos
  }

  /** Where the backward scan stops when it was at `pos` and wants `need` pieces. */
  function StopPos(file: Bytes, pos: nat, need: nat, chunk: nat): (p: nat)
    requires pos <= |file| && chunk >= 1
    ensures p <= pos
    ensures p > 0 ==> PieceCount(file, p) >= need
    decreases pos
  {
    if pos > 0 && PieceCount(file, pos) < need
    then StopPos(file, pos - ReadSize(pos, chunk), need, chunk)
    else pos
  }

  function TailOf(file: Bytes, n: nat, need: nat, chunk: nat): seq<Bytes>
    requires chunk >= 1
  {
    LastN(DropTrailingEmpty(Pieces(file, StopPos(file, |file|, need, chunk))), n)
  }

  /** `_tail_lines`. */
  method TailLines(file: Bytes, n: int, chunk: nat) returns (lines: seq<Bytes>)
    requires chunk >= 1
    ensures n <= 0 ==> lines == []
    ensures n > 0 ==> lines == TailOf(file, n, n + 1, chunk)
  {
    if n <= 0 {
      return [];
    }
    var rawLines := ScanBackwards(file, n + 1, chunk);
    lines := LastN(DropTrailingEmpty(rawLines), n);
  }

  /** Its loop: read blocks backwards until `pos` is 0 or `need` pieces are held. */
  method ScanBackwards(file: Bytes, need: nat, chunk: nat) returns (rawLines: seq<Bytes>)
    requires chunk >= 1
    ensures rawLines == Pieces(file, StopPos(file, |file|, need, chunk))
  {
    rawLines := [];
    var buf: Bytes := [];
    var pos: nat := |file|;
    PiecesCounted(file, pos);
    while pos > 0 && |rawLines| < need
      invariant Scanned(file, need, chunk, pos, buf, rawLines)
    {
      ReadBlock(file, need, chunk, pos, buf, rawLines);
      var readSize := ReadSize(pos, chunk);
      pos := pos - readSize;
      buf := file[pos..pos + readSize] + buf;
      rawLines := Split(buf);
    }
    StopHere(file, pos, need, chunk);
  }

  /** The scan has come to `pos` and goes on to where it must stop. */
  ghost predicate Scanned(file: Bytes, need: nat, chunk: nat, pos: nat, buf: Bytes, rawLines: seq<Bytes>)
    requires chunk >= 1
  {
    pos <= |file| && buf == file[pos..] && rawLines == Pieces(file, pos) && |rawLines| == PieceCount(file, pos) &&
    StopPos(file, pos, need, chunk) == StopPos(file, |file|, need, chunk)
  }

  lemma StopStep(file: Bytes, pos: nat, need: nat, chunk: nat)
    requires 0 < pos <= |file| && chunk >= 1 && PieceCount(file, pos) < need
    ensures StopPos(file, pos, need, chunk) == StopPos(file, pos - ReadSize(pos, chunk), need, chunk)
  {
  }

  lemma StopHere(file: Bytes, pos: nat, need: nat, chunk: nat)
    requires pos <= |file| && chunk >= 1 && (pos == 0 || PieceCount(file, pos) >= need)
    ensures StopPos(file, pos, need, chunk) == pos
  {
  }

  /** Reading one block more. */
  lemma ReadBlock(file: Bytes, need: nat, chunk: nat, pos: nat, buf: Bytes, rawLines: seq<Bytes>)
    requires chunk >= 1 && Scanned(file, need, chunk, pos, buf, rawLines) && pos > 0 && |rawLines| < need
    ensures var size := ReadSize(pos, chunk);
            var more := file[pos - size..pos - size + size] + buf;
            Scanned(file, need, chunk, pos - size, more, Split(more))
  {
    var next := pos - ReadSize(pos, chunk);
    assert file[next..pos] + file[pos..] == file[next..];
    StopStep(file, pos, need, chunk);
    PiecesCounted(file, next);
  }

  /** The scan stops as early as it can: one block nearer the end it still wanted more pieces. */
  lemma {:induction false} StopPosIsFirst(file: Bytes, pos: nat, need: nat, chunk: nat)
    requires pos <= |file| && chunk >= 1
    ensures var p := StopPos(file, pos, need, chunk);
            0 < p < pos ==> p + chunk <= pos && PieceCount(file, p + chunk) < need
    decreases pos
  {
    if pos > 0 && PieceCount(file, pos) < need {
      StopStep(file, pos, need, chunk);
      StopPosIsFirst(file, pos - ReadSize(pos, chunk), need, chunk);
    } else {
      StopHere(file, pos, need, chunk);
    }
  }

  // ---------------------------------------------------------------------------------------------
  // How the two differ
  // ---------------------------------------------------------------------------------------------

  /** The oldest returned line is cut short: the file ends a line, the scan stopped inside the file
      with exactly n newlines behind it, and it did not stop at a line start. */
  predicate CutsOldestLine(file: Bytes, n: nat, chunk: nat)
    requires n >= 1 && chunk >= 1
  {
    var p := StopPos(file, |file|, n + 1, chunk);
    p > 0 && EndsWithNewline(file) && Newlines(file[p..]) == n && file[p - 1] != NEWLINE
  }

  ghost predicate IsSuffix(a: Bytes, b: Bytes) { |a| <= |b| && a == b[|b| - |a|..] }

  lemma LastNGlued(sa: seq<Bytes>, sb: seq<Bytes>, n: nat)
    requires |sa| >= 1 && n >= 1 && |sb| >= n + 1
    ensures var t, f := DropTrailingEmpty(sb), DropTrailingEmpty(Glue(sa, sb));
            LastN(f, n) == if |t| > n then LastN(t, n) else [Last(sa) + sb[0]] + t[1..]
    ensures |DropTrailingEmpty(sb)| >= n
  {
    DropGlued(sa, sb);
    LastNConcat(sa[..|sa| - 1], Last(sa) + sb[0], DropTrailingEmpty(sb), n);
  }

  lemma DropGlued(sa: seq<Bytes>, sb: seq<Bytes>)
    requires |sa| >= 1 && |sb| >= 2
    ensures DropTrailingEmpty(Glue(sa, sb)) == sa[..|sa| - 1] + [Last(sa) + sb[0]] + DropTrailingEmpty(sb)[1..]
  {
    assert Last(Glue(sa, sb)) == Last(sb);
    assert Glue(sa, sb)[..|Glue(sa, sb)| - 1] == sa[..|sa| - 1] + [Last(sa) + sb[0]] + sb[1..][..|sb| - 2];
    assert sb[..|sb| - 1][1..] == sb[1..][..|sb| - 2];
  }

  lemma LastNConcat(pre: seq<Bytes>, x: Bytes, t: seq<Bytes>, n: nat)
    requires n >= 1 && |t| >= n
    ensures LastN(pre + [x] + t[1..], n) == if |t| > n then LastN(t, n) else [x] + t[1..]
  {
    var f := pre + [x] + t[1..];
    if |t| > n {
      assert f[|f| - n..] == t[|t| - n..];
    } else {
      assert f[|f| - n..] == [x] + t[1..];
      assert |pre| == 0 ==> f == [x] + t[1..];
    }
  }

  lemma SplitAtSeam(file: Bytes, p: nat)
    requires p <= |file|
    ensures Split(file) == Glue(Split(file[..p]), Split(file[p..]))
  {
    assert file == file[..p] + file[p..];
    SplitConcat(file[..p], file[p..]);
  }

  /** The oldest line of the window lacks what came before the stop position. */
  predicate WindowIsFull(file: Bytes, n: nat, p: nat)
    requires p <= |file|
  {
    EndsWithNewline(file) && Newlines(file[p..]) == n
  }

  /** The last n lines of the file, seen from a window at its end that holds n newlines. */
  lemma LinesFromWindow(file: Bytes, n: nat, p: nat)
    requires n >= 1 && p <= |file| && Newlines(file[p..]) >= n
    ensures var t := LastN(DropTrailingEmpty(Split(file[p..])), n);
            var lost := if WindowIsFull(file, n, p) then Last(Split(file[..p])) else [];
            |t| == n && LastN(TrueLines(file), n) == [lost + t[0]] + t[1..]
  {
    var sb := Split(file[p..]);
    JoinSplit(file[p..]);
    SplitAtSeam(file, p);
    LastNGlued(Split(file[..p]), sb, n);
    LastPieceEmpty(file[p..]);
    NewlinesFit(file[p..]);
    assert Last(file[p..]) == Last(file);
    GluedFirst([], LastN(DropTrailingEmpty(sb), n));
  }

  /** What losing the front `lost` of the oldest line means. */
  lemma GluedFirst(lost: Bytes, t: seq<Bytes>)
    requires |t| >= 1
    ensures var whole := [lost + t[0]] + t[1..];
            |whole| == |t| && whole[1..] == t[1..] && IsSuffix(t[0], whole[0]) &&
            (t == whole <==> lost == []) && |whole[0]| == |lost| + |t[0]|
  {
    var whole := [lost + t[0]] + t[1..];
    assert [] + t[0] == t[0];
    assert whole[0][|lost|..] == t[0];
  }

  lemma {:induction false} NewlinesFit(s: Bytes)
    ensures Newlines(s) <= |s|
  {
    if s != [] {
      NewlinesFit(s[1..]);
    }
  }

  /** Every returned line is the true one, except that the oldest may be cut at its start; and it is
      cut exactly when `CutsOldestLine` holds. */
  lemma TailExactIff(file: Bytes, n: nat, chunk: nat)
    requires n >= 1 && chunk >= 1
    ensures var t, whole := TailOf(file, n, n + 1, chunk), LastN(TrueLines(file), n);
            |t| == |whole| &&
            (|t| > 0 ==> t[1..] == whole[1..] && IsSuffix(t[0], whole[0])) &&
            (t == whole <==> !CutsOldestLine(file, n, chunk)) &&
            (CutsOldestLine(file, n, chunk) ==> |t| > 0 && |t[0]| < |whole[0]|)
  {
    var p := StopPos(file, |file|, n + 1, chunk);
    if p > 0 {
      WindowIsExactIff(file, n, p);
    } else {
      assert file[0..] == file;
      assert TailOf(file, n, n + 1, chunk) == LastN(TrueLines(file), n);
    }
  }

  lemma WindowIsExactIff(file: Bytes, n: nat, p: nat)
    requires n >= 1 && 0 < p < |file| && Newlines(file[p..]) >= n
    ensures var t, whole := LastN(DropTrailingEmpty(Split(file[p..])), n), LastN(TrueLines(file), n);
            var cut := WindowIsFull(file, n, p) && file[p - 1] != NEWLINE;
            |t| == |whole| == n && t[1..] == whole[1..] && IsSuffix(t[0], whole[0]) &&
            (t == whole <==> !cut) && (cut ==> |t[0]| < |whole[0]|)
  {
    LinesFromWindow(file, n, p);
    LastPieceEmpty(file[..p]);
    GluedFirst(if WindowIsFull(file, n, p) then Last(Split(file[..p])) else [],
               LastN(DropTrailingEmpty(Split(file[p..])), n));
  }

  /** A file whose last line is not finished is always read exactly. */
  lemma UnfinishedFileIsExact(file: Bytes, n: nat, chunk: nat)
    requires n >= 1 && chunk >= 1 && !EndsWithNewline(file)
    ensures TailOf(file, n, n + 1, chunk) == LastN(TrueLines(file), n)
  {
    TailExactIff(file, n, chunk);
  }

  /** Asking for one piece more makes the reader exact on every file. */
  lemma OneMorePieceIsExact(file: Bytes, n: nat, chunk: nat)
    requires n >= 1 && chunk >= 1
    ensures TailOf(file, n, n + 2, chunk) == LastN(TrueLines(file), n)
  {
    var p := StopPos(file, |file|, n + 2, chunk);
    if p > 0 {
      JoinSplit(file[p..]);
      SplitAtSeam(file, p);
      LastNGlued(Split(file[..p]), Split(file[p..]), n);
    } else {
      assert file[0..] == file;
    }
  }

  // ---------------------------------------------------------------------------------------------
  // The log the application writes
  // ---------------------------------------------------------------------------------------------

  /** A log holding `records`, each closed by a newline. */
  function Encoded(records: seq<Bytes>): Bytes {
    if records == [] then [] else records[0] + [NEWLINE] + Encoded(records[1..])
  }

  lemma {:induction false} EncodedAppend(records: seq<Bytes>, line: Bytes)
    ensures Encoded(records + [line]) == Encoded(records) + line + [NEWLINE]
  {
    if records == [] {
      assert records + [line] == [line];
      assert Encoded([line]) == line + [NEWLINE] + Encoded([]);
    } else {
      EncodedAppend(records[1..], line);
      assert (records + [line])[1..] == records[1..] + [line];
    }
  }

  lemma {:induction false} SplitLine(line: Bytes)
    requires OneLine(line)
    ensures Split(line) == [line]
  {
    if line != [] {
      SplitLine(line[1..]);
      assert line == [line[0]] + line[1..];
    }
  }

  lemma SplitFirstLine(line: Bytes, rest: Bytes)
    requires OneLine(line)
    ensures Split(line + [NEWLINE] + rest) == [line] + Split(rest)
  {
    SplitLine(line);
    SplitConcat(line, [NEWLINE]);
    assert Split([NEWLINE]) == [[], []] by { assert [NEWLINE][1..] == []; }
    assert line + [] == line;
    assert Split(line + [NEWLINE]) == [line, []];
    SplitConcat(line + [NEWLINE], rest);
    GlueNewLine(line, Split(rest));
  }

  lemma GlueNewLine(line: Bytes, pieces: seq<Bytes>)
    requires |pieces| >= 1
    ensures Glue([line, []], pieces) == [line] + pieces
  {
    assert [] + pieces[0] == pieces[0];
    assert [line, []][..1] == [line];
  }

  lemma {:induction false} SplitEncoded(records: seq<Bytes>)
    requires forall r :: r in records ==> OneLine(r)
    ensures Split(Encoded(records)) == records + [[]]
  {
    if records != [] {
      SplitEncoded(records[1..]);
      SplitFirstLine(records[0], Encoded(records[1..]));
      assert records == [records[0]] + records[1..];
    }
  }

  /** Reading back a log gives the records that were written. */
  lemma TrueLinesEncoded(records: seq<Bytes>)
    requires forall r :: r in records ==> OneLine(r)
    ensures TrueLines(Encoded(records)) == records
  {
    SplitEncoded(records);
  }

  /** `AuditLogger`, with the file it appends to as its one mutable field. */
  class AuditLogger {
    const enabled: bool
    var content: Bytes

    constructor (enabled: bool, content: Bytes)
      ensures this.enabled == enabled && this.content == content
    {
      this.enabled, this.content := enabled, content;
    }

    /** `record`: `line` is the serialised event, `written` tells whether the write went through. */
    method Record(line: Bytes, written: bool)
      modifies this
      ensures content == if enabled && written then old(content) + line + [NEWLINE] else old(content)
    {
      if !enabled {
        return;
      }
      if written {
        content := content + (line + [NEWLINE]);
      }
    }

    /** `tail`: lines that do not parse are skipped. */
    method Tail<E>(n: int, parse: Bytes -> Option<E>) returns (events: seq<E>)
      ensures events == if n <= 0 then [] else Parsed(TailOf(content, n, n + 1, CHUNK), parse)
    {
      var lines := TailLines(content, n, CHUNK);
      events := [];
      for i := 0 to |lines|
        invariant events == Parsed(lines[..i], parse)
      {
        ParsedNext(lines, i, parse);
        if parse(lines[i]).Some? {
          events := events + [parse(lines[i]).value];
        }
      }
      assert lines[..|lines|] == lines;
    }
  }

  /** The events among `lines`, oldest first. */
  function Parsed<E>(lines: seq<Bytes>, parse: Bytes -> Option<E>): seq<E> {
    if lines == [] then []
    else
      var e := parse(Last(lines));
      Parsed(lines[..|lines| - 1], parse) + if e.Some? then [e.value] else []
  }

  lemma ParsedNext<E>(lines: seq<Bytes>, i: nat, parse: Bytes -> Option<E>)
    requires i < |lines|
    ensures Parsed(lines[..i + 1], parse) ==
            Parsed(lines[..i], parse) + if parse(lines[i]).Some? then [parse(lines[i]).value] else []
  {
    assert lines[..i + 1][..i] == lines[..i];
  }

  /** Whatever the lines are, the events are those of exactly the lines that parse, in order: a line that does not
      parse costs only itself. `at` says which line each event comes from. */
  lemma {:induction false} ParsedExactly<E>(lines: seq<Bytes>, parse: Bytes -> Option<E>) returns (at: seq<nat>)
    ensures forall i: nat :: i in at <==> i < |lines| && parse(lines[i]).Some?
    ensures forall j, k :: 0 <= j < k < |at| ==> at[j] < at[k]
    ensures |Parsed(lines, parse)| == |at|
    ensures forall j :: 0 <= j < |at| ==> at[j] < |lines| && Parsed(lines, parse)[j] == parse(lines[at[j]]).value
  {
    at := [];
    if lines != [] {
      var n := |lines| - 1;
      at := ParsedExactly(lines[..n], parse);
      if parse(lines[n]).Some? { at := at + [n]; }
    }
  }

  lemma {:induction false} ParsedAll<E>(lines: seq<Bytes>, parse: Bytes -> Option<E>)
    requires forall l :: l in lines ==> parse(l).Some?
    ensures |Parsed(lines, parse)| == |lines|
    ensures forall i :: 0 <= i < |lines| ==> Parsed(lines, parse)[i] == parse(lines[i]).value
  {
    if lines != [] {
      ParsedAll(lines[..|lines| - 1], parse);
    }
  }

  lemma {:induction false} ParsedHeadLost<E>(lines: seq<Bytes>, parse: Bytes -> Option<E>)
    requires |lines| > 0 && parse(lines[0]).None?
    ensures Parsed(lines, parse) == Parsed(lines[1..], parse)
  {
    if |lines| == 1 {
      assert lines[..0] == [];
    } else {
      ParsedHeadLost(lines[..|lines| - 1], parse);
      assert lines[..|lines| - 1][1..] == lines[1..][..|lines| - 2];
    }
  }

  lemma {:induction false} EncodedEnds(records: seq<Bytes>)
    requires records != []
    ensures EndsWithNewline(Encoded(records))
  {
    var k := |records| - 1;
    assert records == records[..k] + [records[k]];
    EncodedAppend(records[..k], records[k]);
  }

  // ---------------------------------------------------------------------------------------------
  // When the oldest line is cut, without the scan
  // ---------------------------------------------------------------------------------------------

  /** The length of k blocks. */
  function Blocks(k: nat, chunk: nat): nat { if k == 0 then 0 else Blocks(k - 1, chunk) + chunk }

  /** A read may stop at `p`: whole blocks lie between it and the end of the file. */
  ghost predicate OnBlock(file: Bytes, p: nat, chunk: nat) { exists k: nat :: p + Blocks(k, chunk) == |file| }

  lemma NextBlock(file: Bytes, p: nat, chunk: nat)
    requires chunk >= 1 && OnBlock(file, p, chunk)
    ensures p >= chunk ==> OnBlock(file, p - chunk, chunk)
    ensures forall q: nat :: OnBlock(file, q, chunk) && p - chunk < q <= p ==> q == p
  {
    var k: nat :| p + Blocks(k, chunk) == |file|;
    assert Blocks(k + 1, chunk) == Blocks(k, chunk) + chunk;
    if p >= chunk { assert p - chunk + Blocks(k + 1, chunk) == |file|; }
    forall q: nat | OnBlock(file, q, chunk) && p - chunk < q <= p ensures q == p {
      var m: nat :| q + Blocks(m, chunk) == |file|;
      if m < k { MoreBlocks(m, k, chunk); }
      if m > k { MoreBlocks(k, m, chunk); }
    }
  }

  lemma {:induction false} MoreBlocks(k: nat, m: nat, chunk: nat)
    requires k < m
    ensures Blocks(m, chunk) >= Blocks(k, chunk) + chunk
  {
    if k < m - 1 { MoreBlocks(k, m - 1, chunk); }
  }

  /** The scan stops at the start of the file, or at the block boundary nearest the end that is enough. */
  lemma {:induction false} StopPosOnBlock(file: Bytes, pos: nat, need: nat, chunk: nat, q: nat)
    requires chunk >= 1 && OnBlock(file, pos, chunk)
    ensures var p := StopPos(file, pos, need, chunk);
            (p == 0 || OnBlock(file, p, chunk)) &&
            (OnBlock(file, q, chunk) && p < q <= pos ==> PieceCount(file, q) < need)
    decreases pos
  {
    if pos > 0 && PieceCount(file, pos) < need {
      StopStep(file, pos, need, chunk);
      NextBlock(file, pos, chunk);
      if pos > chunk {
        StopPosOnBlock(file, pos - chunk, need, chunk, q);
      } else {
        StopHere(file, 0, need, chunk);
      }
    } else {
      StopHere(file, pos, need, chunk);
    }
  }

  lemma EndIsOnBlock(file: Bytes, chunk: nat)
    ensures OnBlock(file, |file|, chunk)
  {
    assert |file| + Blocks(0, chunk) == |file|;
  }

  lemma NewlinesFrom(file: Bytes, p: nat, q: nat)
    requires p <= q <= |file|
    ensures Newlines(file[p..]) == Newlines(file[p..q]) + Newlines(file[q..])
    ensures Newlines(file[p..q]) == 0 <==> OneLine(file[p..q])
  {
    assert file[p..] == file[p..q] + file[q..];
    NewlinesConcat(file[p..q], file[q..]);
    NoNewlinesIff(file[p..q]);
  }

  lemma {:induction false} NoNewlinesIff(a: Bytes)
    ensures Newlines(a) == 0 <==> OneLine(a)
  {
    if a != [] { NoNewlinesIff(a[1..]); }
  }

  /** A block boundary with exactly n newlines behind it that is not a line start. */
  ghost predicate CutsAt(file: Bytes, n: nat, chunk: nat, p: nat)
    requires chunk >= 1
  {
    0 < p < |file| && OnBlock(file, p, chunk) && Newlines(file[p..]) == n && file[p - 1] != NEWLINE
  }

  /** The oldest line is cut if and only if the file ends a line and there is such a boundary. */
  lemma CutsOldestLineIff(file: Bytes, n: nat, chunk: nat)
    requires n >= 1 && chunk >= 1
    ensures CutsOldestLine(file, n, chunk) <==> EndsWithNewline(file) && exists p: nat :: CutsAt(file, n, chunk, p)
  {
    if CutsOldestLine(file, n, chunk) {
      var p := StopPos(file, |file|, n + 1, chunk);
      EndIsOnBlock(file, chunk);
      StopPosOnBlock(file, |file|, n + 1, chunk, p);
      assert CutsAt(file, n, chunk, p);
    }
    if q: nat :| EndsWithNewline(file) && CutsAt(file, n, chunk, q) {
      BoundaryCuts(file, n, chunk, q);
    }
  }

  lemma BoundaryCuts(file: Bytes, n: nat, chunk: nat, q: nat)
    requires n >= 1 && chunk >= 1 && EndsWithNewline(file) && CutsAt(file, n, chunk, q)
    ensures CutsOldestLine(file, n, chunk)
  {
    var p := StopPos(file, |file|, n + 1, chunk);
    EndIsOnBlock(file, chunk);
    StopPosOnBlock(file, |file|, n + 1, chunk, q);
    assert PieceCount(file, q) == n + 1 && q <= p;
    NoNewlineBetween(file, q, p, n);
  }

  lemma NoNewlineBetween(file: Bytes, q: nat, p: nat, n: nat)
    requires 0 < q <= p <= |file| && Newlines(file[q..]) == n <= Newlines(file[p..]) && file[q - 1] != NEWLINE
    ensures Newlines(file[p..]) == n && file[p - 1] != NEWLINE
  {
    NewlinesFrom(file, q, p);
    if q < p { assert file[p - 1] == file[q..p][p - 1 - q]; }
  }

  /** In a log, this is a boundary inside the oldest record asked for, or right behind its last byte. */
  lemma LogIsCutIff(records: seq<Bytes>, n: nat, chunk: nat)
    requires n >= 1 && chunk >= 1 && forall r :: r in records ==> OneLine(r)
    ensures |records| < n ==> !CutsOldestLine(Encoded(records), n, chunk)
    ensures |records| >= n ==>
      var log, k := Encoded(records), |records| - n;
      var start := |Encoded(records[..k])|;
      (CutsOldestLine(log, n, chunk) <==> exists p: nat :: OnBlock(log, p, chunk) && start < p <= start + |records[k]|)
  {
    var log := Encoded(records);
    CutsOldestLineIff(log, n, chunk);
    EncodedNewlines(records);
    if |records| < n {
      forall p: nat ensures !CutsAt(log, n, chunk, p) {
        if p <= |log| { NewlinesFrom(log, 0, p); assert log[0..] == log; }
      }
    } else {
      var k := |records| - n;
      var start := |Encoded(records[..k])|;
      EncodedEnds(records);
      forall p: nat ensures CutsAt(log, n, chunk, p) <==> OnBlock(log, p, chunk) && start < p <= start + |records[k]| {
        if 0 < p < |log| { CutsInside(records, k, p); }
        EncodedSplit(records, k);
      }
    }
  }

  lemma {:induction false} EncodedNewlines(records: seq<Bytes>)
    requires forall r :: r in records ==> OneLine(r)
    ensures Newlines(Encoded(records)) == |records|
  {
    if records != [] {
      EncodedNewlines(records[1..]);
      NewlinesConcat(records[0] + [NEWLINE], Encoded(records[1..]));
      NewlinesConcat(records[0], [NEWLINE]);
      NoNewlines(records[0]);
      assert [NEWLINE][1..] == [];
    }
  }

  lemma {:induction false} EncodedSplit(records: seq<Bytes>, k: nat)
    requires k < |records|
    ensures Encoded(records) == Encoded(records[..k]) + records[k] + [NEWLINE] + Encoded(records[k + 1..])
  {
    if k > 0 {
      EncodedSplit(records[1..], k - 1);
      assert records[1..][..k - 1] == records[..k][1..] && records[1..][k..] == records[k + 1..];
    } else {
      assert records[..0] == [] && Encoded([]) == [];
    }
  }

  /** How many newlines lie behind a position, and what stands before it, around one record of a log. */
  lemma CutsInside(records: seq<Bytes>, k: nat, p: nat)
    requires k < |records| && 0 < p < |Encoded(records)| && forall r :: r in records ==> OneLine(r)
    ensures var log, start := Encoded(records), |Encoded(records[..k])|;
            Newlines(log[p..]) == |records| - k && log[p - 1] != NEWLINE <==> start < p <= start + |records[k]|
  {
    EncodedSplit(records, k);
    EncodedNewlines(records[k + 1..]);
    if k > 0 { EncodedEnds(records[..k]); }
    AroundLine(Encoded(records[..k]), records[k], Encoded(records[k + 1..]), |records| - k, p);
  }

  lemma AroundLine(pre: Bytes, line: Bytes, suf: Bytes, n: nat, p: nat)
    requires OneLine(line) && (pre == [] || EndsWithNewline(pre)) && Newlines(suf) + 1 == n
    requires 0 < p < |pre + line + [NEWLINE] + suf|
    ensures var log := pre + line + [NEWLINE] + suf;
            Newlines(log[p..]) == n && log[p - 1] != NEWLINE <==> |pre| < p <= |pre| + |line|
  {
    var log := pre + line + [NEWLINE] + suf;
    var start, last := |pre|, |pre| + |line|;
    assert log[start..last] == line && log[last] == NEWLINE && log[last + 1..] == suf;
    assert pre != [] ==> log[start - 1] == pre[start - 1];
    BehindLine(log, start, last, p);
  }

  /** One line of a log stands between `start` and `last`. */
  lemma BehindLine(log: Bytes, start: nat, last: nat, p: nat)
    requires start <= last < |log| && OneLine(log[start..last]) && log[last] == NEWLINE && 0 < p < |log|
    requires start > 0 ==> log[start - 1] == NEWLINE
    ensures Newlines(log[p..]) == Newlines(log[last + 1..]) + 1 && log[p - 1] != NEWLINE <==> start < p <= last
  {
    NewlinesFrom(log, start, last);
    OneMoreNewline(log, last, last + 1);
    assert log[last..last + 1] == [NEWLINE] && [NEWLINE][1..] == [];
    NewlinesFrom(log, last, last + 1);
    if p < start {
      OneMoreNewline(log, p, start);
    } else if start < p <= last {
      NewlinesFrom(log, p, last);
      assert log[p - 1] == log[start..last][p - 1 - start];
      assert log[p..last] == log[start..last][p - start..];
    } else if p > last {
      NewlinesFrom(log, last + 1, p);
    }
  }

  lemma OneMoreNewline(log: Bytes, p: nat, start: nat)
    requires p < start <= |log| && log[start - 1] == NEWLINE
    ensures Newlines(log[p..]) > Newlines(log[start..])
  {
    NewlinesFrom(log, p, start);
    assert log[p..start][start - 1 - p] == NEWLINE;
  }

  /** On a log this logger wrote, where no proper suffix of a record is itself a record, `tail(n)` is
      the last n events, or exactly one fewer: the oldest is lost when its line was cut. */
  lemma TailOfLog<E>(records: seq<Bytes>, n: nat, parse: Bytes -> Option<E>)
    requires n >= 1
    requires forall r :: r in records ==> OneLine(r) && parse(r).Some?
    requires forall r, t :: r in records && IsSuffix(t, r) && |t| < |r| ==> parse(t).None?
    ensures var log := Encoded(records);
            var events := Parsed(TailOf(log, n, n + 1, CHUNK), parse);
            var wanted := LastN(records, n);
            events == Parsed(if CutsOldestLine(log, n, CHUNK) then wanted[1..] else wanted, parse)
            && |events| == |wanted| - (if CutsOldestLine(log, n, CHUNK) then 1 else 0)
  {
    var log := Encoded(records);
    TrueLinesEncoded(records);
    TailExactIff(log, n, CHUNK);
    var t, wanted := TailOf(log, n, n + 1, CHUNK), LastN(records, n);
    if CutsOldestLine(log, n, CHUNK) {
      assert wanted[0] in records;
      ParsedHeadLost(t, parse);
      ParsedAll(wanted[1..], parse);
    } else {
      ParsedAll(wanted, parse);
    }
  }

  function Fill(k: nat): (s: Bytes)
    ensures |s| == k && NEWLINE !in s
  {
    seq(k, i => 97)
  }

  lemma {:induction false} NewlinesConcat(a: Bytes, b: Bytes)
    ensures Newlines(a + b) == Newlines(a) + Newlines(b)
  {
    if a == [] {
      assert a + b == b;
    } else {
      NewlinesConcat(a[1..], b);
      assert (a + b)[1..] == a[1..] + b;
    }
  }

  lemma {:induction false} NoNewlines(a: Bytes)
    requires OneLine(a)
    ensures Newlines(a) == 0
  {
    if a != [] {
      NoNewlines(a[1..]);
    }
  }

  /** With the block size the code uses, a single record as long as a block is already read wrong. */
  lemma BlockLongRecordIsCut()
    ensures var log := Encoded([Fill(CHUNK)]);
            CutsOldestLine(log, 1, CHUNK)
            && TailOf(log, 1, 2, CHUNK) != LastN(TrueLines(log), 1)
  {
    var line := Fill(CHUNK);
    var log := Encoded([line]);
    assert log == line + [NEWLINE];
    var rest := log[1..];
    assert rest == line[1..] + [NEWLINE];
    NewlinesConcat(line[1..], [NEWLINE]);
    NoNewlines(line[1..]);
    StopStep(log, |log|, 2, CHUNK);
    StopHere(log, 1, 2, CHUNK);
    TailExactIff(log, 1, CHUNK);
  }

  // ---------------------------------------------------------------------------------------------
  // query
  // ---------------------------------------------------------------------------------------------

  /** The parsed lines that `keep` accepts, newest first. */
  function Newest<E>(lines: seq<Bytes>, parse: Bytes -> Option<E>, keep: E -> bool): seq<E> {
    if lines == [] then []
    else
      var e := parse(Last(lines));
      (if e.Some? && keep(e.value) then [e.value] else []) + Newest(lines[..|lines| - 1], parse, keep)
  }

  /** `query`: `limit` is tested after a match is added, so a match is returned even for limit 0. */
  method Query<E>(lines: seq<Bytes>, parse: Bytes -> Option<E>, keep: E -> bool, limit: int)
    returns (results: seq<E>)
    ensures var all := Newest(lines, parse, keep);
            var most := if limit < 1 then 1 else limit;
            results == if |all| <= most then all else all[..most]
  {
    results := [];
    var i := |lines|;
    assert lines[..i] == lines;
    while i > 0
      invariant 0 <= i <= |lines|
      invariant Newest(lines, parse, keep) == results + Newest(lines[..i], parse, keep)
      invariant |results| == 0 || |results| < limit
    {
      i := i - 1;
      NewestOneMore(lines, i, parse, keep);
      var e := parse(lines[i]);
      if e.None? || !keep(e.value) {
        continue;
      }
      results := results + [e.value];
      if |results| >= limit {
        break;
      }
    }
  }

  lemma NewestOneMore<E>(lines: seq<Bytes>, i: nat, parse: Bytes -> Option<E>, keep: E -> bool)
    requires i < |lines|
    ensures var e, older := parse(lines[i]), Newest(lines[..i], parse, keep);
            Newest(lines[..i + 1], parse, keep) == if e.Some? && keep(e.value) then [e.value] + older else older
  {
    assert lines[..i + 1][..i] == lines[..i];
  }

  /** Whatever the lines are, these are exactly the lines that parse and are accepted, last one first. */
  lemma {:induction false} NewestExactly<E>(lines: seq<Bytes>, parse: Bytes -> Option<E>, keep: E -> bool) returns (at: seq<nat>)
    ensures forall i: nat :: i in at <==> i < |lines| && parse(lines[i]).Some? && keep(parse(lines[i]).value)
    ensures forall j, k :: 0 <= j < k < |at| ==> at[j] > at[k]
    ensures |Newest(lines, parse, keep)| == |at|
    ensures forall j :: 0 <= j < |at| ==> at[j] < |lines| && Newest(lines, parse, keep)[j] == parse(lines[at[j]]).value
  {
    at := [];
    if lines != [] {
      var n := |lines| - 1;
      at := NewestExactly(lines[..n], parse, keep);
      if parse(lines[n]).Some? && keep(parse(lines[n]).value) { at := [n] + at; }
    }
  }

  lemma {:induction false} NewestAll<E>(lines: seq<Bytes>, parse: Bytes -> Option<E>, keep: E -> bool)
    requires forall l :: l in lines ==> parse(l).Some? && keep(parse(l).value)
    ensures |Newest(lines, parse, keep)| == |lines|
    ensures forall i :: 0 <= i < |lines| ==>
              Newest(lines, parse, keep)[i] == parse(lines[|lines| - 1 - i]).value
  {
    if lines != [] {
      NewestAll(lines[..|lines| - 1], parse, keep);
    }
  }

  /** `events` are the first `n` of `newest`, in reverse. */
  ghost predicate Reversed<E>(events: seq<E>, newest: seq<E>, n: nat) {
    |events| == (if |newest| <= n then |newest| else n) &&
    forall i :: 0 <= i < |events| ==> newest[i] == events[|events| - 1 - i]
  }

  /** An unfiltered `query(limit=n)` is `tail(n)` read backwards, whenever `tail` cut no line. */
  lemma QueryReversesTail<E>(records: seq<Bytes>, n: nat, parse: Bytes -> Option<E>, keep: E -> bool)
    requires n >= 1
    requires forall r :: r in records ==> OneLine(r) && parse(r).Some? && keep(parse(r).value)
    requires !CutsOldestLine(Encoded(records), n, CHUNK)
    ensures var events := Parsed(TailOf(Encoded(records), n, n + 1, CHUNK), parse);
            var newest := Newest(TrueLines(Encoded(records)), parse, keep);
            Reversed(events, newest, n)
  {
    TrueLinesEncoded(records);
    TailExactIff(Encoded(records), n, CHUNK);
    NewestReversesLast(records, n, parse, keep);
  }

  lemma NewestReversesLast<E>(records: seq<Bytes>, n: nat, parse: Bytes -> Option<E>, keep: E -> bool)
    requires forall r :: r in records ==> parse(r).Some? && keep(parse(r).value)
    ensures var events, newest := Parsed(LastN(records, n), parse), Newest(records, parse, keep);
            Reversed(events, newest, n)
  {
    NewestAll(records, parse, keep);
    ParsedAll(LastN(records, n), parse);
  }
}
