/** Byte-exact incremental reading of a growing file (collector/v2_reader.py, collector/reader.py).

    Lines are byte strings, as they are before decoding: a complete line ends with its only
    newline. */
module Reading {
  import opened Text

  newtype Byte = b: int | 0 <= b < 256

  type Bytes = seq<Byte>

  const NEWLINE: Byte := 10

  // ----- complete lines -----

  /** The offset just past the first newline at or after i. */
  function PastNewline(data: Bytes, i: nat): (end: Option<nat>)
    requires i <= |data|
    ensures end.Some? ==> i < end.value <= |data| && data[end.value - 1] == NEWLINE
    ensures end.Some? ==> forall j :: i <= j < end.value - 1 ==> data[j] != NEWLINE
    ensures end.None? ==> forall j :: i <= j < |data| ==> data[j] != NEWLINE
    decreases |data| - i
  {
    if i == |data| then None
    else if data[i] == NEWLINE then Some(i + 1)
    else PastNewline(data, i + 1)
  }

  lemma {:induction false} PastNewlineIs(data: Bytes, i: nat, end: nat)
    requires i < end <= |data| && data[end - 1] == NEWLINE && forall j :: i <= j < end - 1 ==> data[j] != NEWLINE
    ensures PastNewline(data, i) == Some(end)
    decreases end - i
  {
    if data[i] != NEWLINE { PastNewlineIs(data, i + 1, end); }
  }

  /** The complete lines of the data from an offset on. */
  function Lines(data: Bytes, i: nat): seq<Bytes>
    requires i <= |data|
    decreases |data| - i
  {
    match PastNewline(data, i)
    case None => []
    case Some(e) => [data[i..e]] + Lines(data, e)
  }

  function CompleteLines(data: Bytes): seq<Bytes> {
    Lines(data, 0)
  }

  function Flat(lines: seq<Bytes>): Bytes {
    if lines == [] then [] else lines[0] + Flat(lines[1..])
  }

  predicate IsLine(line: Bytes) {
    line != [] && line[|line| - 1] == NEWLINE && forall j :: 0 <= j < |line| - 1 ==> line[j] != NEWLINE
  }

  predicate AreLines(lines: seq<Bytes>) {
    forall i :: 0 <= i < |lines| ==> IsLine(lines[i])
  }

  lemma {:induction false} FlatConcat(a: seq<Bytes>, b: seq<Bytes>)
    ensures Flat(a + b) == Flat(a) + Flat(b)
  {
    if a == [] {
      assert a + b == b;
    } else {
      FlatConcat(a[1..], b);
      assert (a + b)[1..] == a[1..] + b;
      assert (a[0] + Flat(a[1..])) + Flat(b) == a[0] + (Flat(a[1..]) + Flat(b));
    }
  }

  lemma FlatOne(line: Bytes, lines: seq<Bytes>)
    ensures Flat([line]) == line && Flat([line] + lines) == line + Flat(lines)
    ensures Flat(lines + [line]) == Flat(lines) + line
  {
    assert [line][1..] == [] && ([line] + lines)[1..] == lines;
    FlatConcat(lines, [line]);
  }

  /** The first m lines from an offset: they are lines, their bytes are the file's, and the rest of the lines
      follow where they end. */
  lemma {:induction false} LinesSplit(data: Bytes, i: nat, m: nat)
    requires i <= |data| && m <= |Lines(data, i)|
    ensures var end := i + |Flat(Lines(data, i)[..m])|;
      && end <= |data| && data[i..end] == Flat(Lines(data, i)[..m])
      && Lines(data, end) == Lines(data, i)[m..]
      && (m > 0 ==> end > i && data[end - 1] == NEWLINE)
    decreases m
  {
    hide PastNewline, Flat;
    EmptyFlat();
    assert Lines(data, i)[..0] == [];
    if m > 0 {
      var e := PastNewline(data, i).value;
      var rest := Lines(data, e);
      LinesSplit(data, e, m - 1);
      assert Lines(data, i)[..m] == [data[i..e]] + rest[..m - 1];
      FlatOne(data[i..e], rest[..m - 1]);
      var end := e + |Flat(rest[..m - 1])|;
      assert data[i..end] == data[i..e] + data[e..end];
    }
  }

  lemma {:induction false} LinesAreLines(data: Bytes, i: nat)
    requires i <= |data|
    ensures AreLines(Lines(data, i))
    decreases |data| - i
  {
    match PastNewline(data, i)
    case None =>
    case Some(e) =>
      LinesAreLines(data, e);
      assert IsLine(data[i..e]);
  }

  /** All complete lines end at a newline, and no newline follows: a partial last line is never part of them. */
  lemma {:induction false} LinesThenRest(data: Bytes, i: nat)
    requires i <= |data|
    ensures var end := i + |Flat(Lines(data, i))|;
      && end <= |data| && data[i..end] == Flat(Lines(data, i)) && AreLines(Lines(data, i))
      && NEWLINE !in data[end..]
  {
    hide Lines, Flat;
    LinesAreLines(data, i);
    LinesSplit(data, i, |Lines(data, i)|);
    assert Lines(data, i)[..|Lines(data, i)|] == Lines(data, i);
    var end := i + |Flat(Lines(data, i))|;
    NoLines(data, end);
  }

  lemma NoLines(data: Bytes, end: nat)
    requires end <= |data|
    ensures Lines(data, end) == [] <==> NEWLINE !in data[end..]
  {
    if Lines(data, end) != [] {
      var e := PastNewline(data, end).value;
      assert data[end..][e - 1 - end] == NEWLINE;
    }
  }

  /** Nothing else has that shape: lines whose bytes are the data's, up to where no newline follows. */
  lemma {:induction false} LinesUnique(data: Bytes, i: nat, lines: seq<Bytes>, end: nat)
    requires i <= end <= |data| && AreLines(lines) && data[i..end] == Flat(lines) && NEWLINE !in data[end..]
    ensures lines == Lines(data, i)
    decreases |lines|
  {
    if lines == [] {
      assert end == i;
      NoLines(data, end);
    } else {
      var e := i + |lines[0]|;
      assert data[i..e] == data[i..end][..|lines[0]|] == lines[0];
      assert forall j :: i <= j < e ==> data[j] == lines[0][j - i];
      PastNewlineIs(data, i, e);
      assert data[e..end] == data[i..end][|lines[0]|..] == Flat(lines[1..]);
      LinesUnique(data, e, lines[1..], end);
    }
  }

  /** Appending to the file keeps the complete lines it had. */
  lemma {:induction false} LinesOfGrown(data: Bytes, appended: Bytes, i: nat)
    requires i <= |data|
    ensures |Lines(data, i)| <= |Lines(data + appended, i)|
    ensures Lines(data + appended, i)[..|Lines(data, i)|] == Lines(data, i)
    decreases |data| - i
  {
    match PastNewline(data, i)
    case None =>
    case Some(e) =>
      LinesOfGrown(data, appended, e);
      PastNewlineIs(data + appended, i, e);
      assert (data + appended)[i..e] == data[i..e];
  }

  lemma {:induction false} FlatOfPrefix(lines: seq<Bytes>, a: nat, b: nat)
    requires a <= b <= |lines|
    ensures |Flat(lines[..a])| <= |Flat(lines[..b])|
  {
    FlatConcat(lines[..a], lines[a..b]);
    assert lines[..a] + lines[a..b] == lines[..b];
  }

  // ----- the v1 reading loop -----

  /** What `readline` returns at an offset: a complete line, or whatever is left. */
  function Readline(data: Bytes, i: nat): Bytes
    requires i <= |data|
  {
    match PastNewline(data, i)
    case Some(e) => data[i..e]
    case None => data[i..]
  }

  predicate Complete(raw: Bytes) {
    raw != [] && raw[|raw| - 1] == NEWLINE
  }

  lemma ReadlineStep(data: Bytes, i: nat, lines: seq<Bytes>)
    requires i <= |data|
    ensures var raw := Readline(data, i);
      if Complete(raw) then
        && i + |raw| <= |data| && Lines(data, i) == [raw] + Lines(data, i + |raw|) && data[i + |raw| - 1] == NEWLINE
        && Flat(lines + [raw]) == Flat(lines) + raw
      else Lines(data, i) == []
  {
    FlatOne(Readline(data, i), lines);
  }

  /** Everything complete from an offset, and where it ends. */
  method ReadCompleteLines(data: Bytes, start: nat) returns (lines: seq<Bytes>, end: nat)
    requires start <= |data|
    ensures lines == Lines(data, start) && end == start + |Flat(lines)| <= |data|
    ensures end > start ==> data[end - 1] == NEWLINE
  {
    hide Lines, Flat, Readline;
    lines, end := [], start;
    assert Flat([]) == [] by { EmptyFlat(); }
    while true
      invariant start <= end <= |data| && end == start + |Flat(lines)|
      invariant Lines(data, start) == lines + Lines(data, end)
      invariant end > start ==> data[end - 1] == NEWLINE
      decreases |data| - end
    {
      var raw := Readline(data, end);
      ReadlineStep(data, end, lines);
      if !Complete(raw) { return; }
      lines, end := lines + [raw], end + |raw|;
    }
  }

  lemma EmptyFlat()
    ensures Flat([]) == [] && CompleteLines([]) == []
  {
  }

  // ----- the bounded chunk -----

  /** A file's identity: volume serial and file index. */
  datatype Token = Token(volume: nat, index: nat)

  datatype Cursor = Cursor(identity: Option<Token>, offset: nat)

  const UINT32 := 0x1_0000_0000

  /** Whether a saved identity names the current file: equality, and on Windows one legacy form whose 32-bit
      volume serial is the low half of the current one. */
  predicate SameFile(saved: Token, current: Token, windows: bool) {
    saved == current
    || (windows && saved.index == current.index && saved.volume < UINT32 <= current.volume
        && current.volume % UINT32 == saved.volume)
  }

  /** The legacy form works in one direction, one step: following it twice, or both ways, gives nothing new, and
      two names of one kind of serial are the same file only if they are equal. */
  lemma SameFileIsOrder(a: Token, b: Token, c: Token, windows: bool)
    ensures SameFile(a, a, windows)
    ensures SameFile(a, b, windows) && SameFile(b, c, windows) ==> SameFile(a, c, windows) && (a == b || b == c)
    ensures SameFile(a, b, windows) && SameFile(b, a, windows) ==> a == b
    ensures SameFile(a, b, windows) && (a.volume < UINT32 <==> b.volume < UINT32) ==> a == b
    ensures SameFile(a, c, windows) && SameFile(b, c, windows) && a != c && b != c ==> a == b
  {
  }

  /** What one read sees at a path: nothing; a file that cannot be read after all; or a file whose size is taken
      before and after its contents are read. */
  datatype View = Missing | Unreadable(identity: Token) | File(identity: Token, before: nat, data: Bytes, after: nat)

  datatype ChunkRead = ChunkRead(lines: seq<Bytes>, cursor: Option<Cursor>, existed: bool, rotated: bool,
                                 truncated: bool, more: bool)

  predicate Rotated(cursor: Option<Cursor>, identity: Token, windows: bool) {
    cursor.Some? && cursor.value.identity.Some? && !SameFile(cursor.value.identity.value, identity, windows)
  }

  predicate Truncated(cursor: Option<Cursor>, identity: Token, size: nat, windows: bool) {
    cursor.Some? && cursor.value.identity.Some? && SameFile(cursor.value.identity.value, identity, windows)
    && size < cursor.value.offset
  }

  /** Where a read of this file starts. */
  function StartOf(cursor: Option<Cursor>, identity: Token, size: nat, windows: bool): nat {
    if cursor.None? || cursor.value.identity.None? || Rotated(cursor, identity, windows)
       || Truncated(cursor, identity, size, windows) then 0
    else cursor.value.offset
  }

  /** The complete lines from an offset; past the end there are none. */
  function LinesFrom(data: Bytes, start: nat): seq<Bytes> {
    if start <= |data| then Lines(data, start) else []
  }

  function AtMost(lines: seq<Bytes>, max: nat): seq<Bytes> {
    if |lines| <= max then lines else lines[..max]
  }

  /** One bounded read: the first complete lines from where it starts, at most maxLines, and the offset just past
      them; `more` exactly when the limit stopped it and bytes follow. A file that is missing or cannot be read
      leaves the cursor alone. */
  method ReadChunk(view: View, cursor: Option<Cursor>, maxLines: nat, windows: bool) returns (read: ChunkRead)
    ensures !view.File? ==> read == ChunkRead([], cursor, false, false, false, false)
    ensures view.File? ==>
      var start := StartOf(cursor, view.identity, view.before, windows);
      && read.existed
      && read.rotated == Rotated(cursor, view.identity, windows)
      && read.truncated == Truncated(cursor, view.identity, view.before, windows)
      && read.lines == AtMost(LinesFrom(view.data, start), maxLines)
      && read.cursor == Some(Cursor(Some(view.identity), start + |Flat(read.lines)|))
      && read.more == (view.after > start + |Flat(read.lines)| && |read.lines| >= maxLines)
  {
    hide Lines, Flat, LinesFrom, AtMost, SameFile;
    if !view.File? { return ChunkRead([], cursor, false, false, false, false); }
    var start: nat := 0;
    var rotated, truncated := false, false;
    if cursor.None? || cursor.value.identity.None? {
    } else if !SameFile(cursor.value.identity.value, view.identity, windows) {
      rotated := true;
    } else if view.before < cursor.value.offset {
      truncated := true;
    } else {
      start := cursor.value.offset;
    }
    var lines, safe := ReadUpTo(view.data, start, maxLines);
    var more := view.after > safe;
    return ChunkRead(lines, Some(Cursor(Some(view.identity), safe)), true, rotated, truncated, more && |lines| >= maxLines);
  }

  method ReadUpTo(data: Bytes, start: nat, maxLines: nat) returns (lines: seq<Bytes>, safe: nat)
    ensures lines == AtMost(LinesFrom(data, start), maxLines) && safe == start + |Flat(lines)|
  {
    hide Lines, Flat, Readline, LinesFrom;
    lines, safe := [], start;
    assert Flat([]) == [] by { EmptyFlat(); }
    while |lines| < maxLines
      invariant |lines| <= maxLines && safe == start + |Flat(lines)|
      invariant LinesFrom(data, start) == lines + LinesFrom(data, safe)
      decreases maxLines - |lines|
    {
      LinesFromStep(data, safe);
      if safe > |data| { break; }
      var raw := Readline(data, safe);
      ReadlineStep(data, safe, lines);
      if !Complete(raw) { break; }
      lines, safe := lines + [raw], safe + |raw|;
    }
  }

  lemma LinesFromStep(data: Bytes, start: nat)
    ensures LinesFrom(data, start) == if start <= |data| then Lines(data, start) else []
    ensures start <= |data| && Complete(Readline(data, start)) ==>
      start + |Readline(data, start)| <= |data|
      && LinesFrom(data, start + |Readline(data, start)|) == Lines(data, start + |Readline(data, start)|)
  {
  }

  // ----- repeated chunks of a growing file -----

  /** One read of a file under one identity that only grows: the bytes appended since the last read, the limit. */
  datatype Growth = Growth(appended: Bytes, maxLines: nat)

  function Grown(steps: seq<Growth>): Bytes {
    if steps == [] then [] else Grown(steps[..|steps| - 1]) + steps[|steps| - 1].appended
  }

  /** The lines the successive reads return, each read starting where the last one stopped. */
  function ReadAll(steps: seq<Growth>): seq<Bytes> {
    if steps == [] then []
    else
      var earlier := ReadAll(steps[..|steps| - 1]);
      earlier + AtMost(LinesFrom(Grown(steps), |Flat(earlier)|), steps[|steps| - 1].maxLines)
  }

  /** However a growing file is read in chunks, the lines are the first complete lines of the file, each once and
      in order, the offset is just past them, and a read that stays below its limit has read everything one read
      would. */
  lemma {:induction false} ChunksAreOneReading(steps: seq<Growth>)
    ensures var lines, data := ReadAll(steps), Grown(steps);
      && |lines| <= |CompleteLines(data)| && lines == CompleteLines(data)[..|lines|]
      && |Flat(lines)| <= |data| && Flat(lines) == data[..|Flat(lines)|]
      && (|Flat(lines)| > 0 ==> data[|Flat(lines)| - 1] == NEWLINE)
      && (steps != [] && |lines| < |ReadAll(steps[..|steps| - 1])| + steps[|steps| - 1].maxLines ==> lines == CompleteLines(data))
  {
    hide Lines, Flat;
    EmptyFlat();
    if steps == [] {
      LinesSplit([], 0, 0);
    } else {
      var init := steps[..|steps| - 1];
      var earlier, data, m := ReadAll(init), Grown(steps), steps[|steps| - 1].maxLines;
      ChunksAreOneReading(init);
      LinesOfGrown(Grown(init), steps[|steps| - 1].appended, 0);
      NextChunk(data, earlier, m);
    }
  }

  /** One more chunk after the first lines of a file: still its first lines, and all of them below the limit. */
  lemma NextChunk(data: Bytes, earlier: seq<Bytes>, m: nat)
    requires |earlier| <= |CompleteLines(data)| && earlier == CompleteLines(data)[..|earlier|]
    ensures var lines := earlier + AtMost(LinesFrom(data, |Flat(earlier)|), m);
      && |lines| <= |CompleteLines(data)| && lines == CompleteLines(data)[..|lines|]
      && |Flat(lines)| <= |data| && Flat(lines) == data[..|Flat(lines)|]
      && (|Flat(lines)| > 0 ==> data[|Flat(lines)| - 1] == NEWLINE)
      && (|lines| < |earlier| + m ==> lines == CompleteLines(data))
  {
    hide Lines, Flat;
    EmptyFlat();
    var all := CompleteLines(data);
    LinesSplit(data, 0, |earlier|);
    var took := AtMost(all[|earlier|..], m);
    var n := |earlier| + |took|;
    assert earlier + took == all[..n];
    LinesSplit(data, 0, n);
    assert n == |all| ==> all[..n] == all;
    assert n == 0 ==> all[..n] == [];
  }

  // ----- the tail -----

  /** The complete lines of the last bytes, the first one dropped unless reading began at the file's start. */
  function TailLines(data: Bytes, start: nat): seq<Bytes> {
    if start == 0 then CompleteLines(data)
    else if start > |data| || PastNewline(data, start).None? then []
    else Lines(data, PastNewline(data, start).value)
  }

  /** The position of the last newline in data[lo..hi]. */
  function LastNewline(data: Bytes, lo: nat, hi: nat): (n: Option<nat>)
    requires lo <= hi <= |data|
    ensures n.Some? ==> lo <= n.value < hi && data[n.value] == NEWLINE && forall j :: n.value < j < hi ==> data[j] != NEWLINE
    ensures n.None? ==> forall j :: lo <= j < hi ==> data[j] != NEWLINE
    decreases hi
  {
    if lo == hi then None
    else if data[hi - 1] == NEWLINE then Some(hi - 1)
    else LastNewline(data, lo, hi - 1)
  }

  /** What splitting data[lo..hi] on newlines gives: one more piece than it has newlines. */
  function Pieces(data: Bytes, lo: nat, hi: nat): (pieces: seq<Bytes>)
    requires lo <= hi <= |data|
    decreases hi - lo
  {
    var e := PastNewline(data, lo);
    if e.None? || e.value > hi then [data[lo..hi]]
    else [data[lo..e.value - 1]] + Pieces(data, e.value, hi)
  }

  function WithNewlines(pieces: seq<Bytes>): (lines: seq<Bytes>)
    ensures |lines| == |pieces| && forall i :: 0 <= i < |pieces| ==> lines[i] == pieces[i] + [NEWLINE]
  {
    seq(|pieces|, i requires 0 <= i < |pieces| => pieces[i] + [NEWLINE])
  }

  lemma {:induction false} PiecesAreLines(data: Bytes, from: nat, last: nat)
    requires from <= last < |data| && data[last] == NEWLINE && forall j :: last < j < |data| ==> data[j] != NEWLINE
    ensures WithNewlines(Pieces(data, from, last)) == Lines(data, from)
    decreases last - from
  {
    var e := PastNewline(data, from).value;
    assert e <= last + 1;
    assert data[from..e] == data[from..e - 1] + [NEWLINE];
    if e <= last {
      PiecesAreLines(data, e, last);
      assert WithNewlines(Pieces(data, from, last)) == [data[from..e]] + WithNewlines(Pieces(data, e, last));
    } else {
      assert Lines(data, e) == [];
      assert WithNewlines(Pieces(data, from, last)) == [data[from..e]];
    }
  }

  /** Reading the tail of a file. The buffer is the file from `lo` on. */
  method ReadTail(data: Bytes, size: nat, tailBytes: nat) returns (lines: seq<Bytes>)
    ensures lines == TailLines(data, if size > tailBytes then size - tailBytes else 0)
  {
    var start := if size > tailBytes then size - tailBytes else 0;
    if start > |data| { return []; }
    var lo := start;
    if start > 0 {
      var cut := PastNewline(data, start);
      lo := if cut.None? then |data| else cut.value;
    }
    assert TailLines(data, start) == Lines(data, lo);
    var last := LastNewline(data, lo, |data|);
    if last.None? { return []; }
    PiecesAreLines(data, lo, last.value);
    lines := WithNewlines(Pieces(data, lo, last.value));
  }

  /** The tail is a suffix of the complete lines: all of them from the start, else exactly those that begin after
      the cut. */
  lemma TailIsSuffix(data: Bytes, start: nat) returns (k: nat)
    requires start <= |data|
    ensures k <= |CompleteLines(data)| && TailLines(data, start) == CompleteLines(data)[k..]
    ensures forall i :: 0 <= i < |CompleteLines(data)| ==>
      (i >= k <==> start == 0 || |Flat(CompleteLines(data)[..i])| > start)
  {
    hide Flat, Lines;
    var all := CompleteLines(data);
    if start == 0 { return 0; }
    k := FirstAfter(data, 0, start);
    forall i | 0 <= i < |all| ensures i >= k <==> |Flat(all[..i])| > start {
      if i < k { FlatOfPrefix(all, i, k - 1); } else { FlatOfPrefix(all, k, i); }
    }
  }

  lemma PastNewlineNone(data: Bytes, i: nat, start: nat)
    requires i <= start <= |data| && PastNewline(data, i).None?
    ensures PastNewline(data, start).None?
  {
  }

  lemma LinesStep(data: Bytes, i: nat)
    requires i <= |data|
    ensures match PastNewline(data, i)
      case None => Lines(data, i) == []
      case Some(e) => Lines(data, i) == [data[i..e]] + Lines(data, e)
  {
  }

  lemma {:induction false} FirstAfter(data: Bytes, i: nat, start: nat) returns (k: nat)
    requires i <= start <= |data|
    ensures k <= |Lines(data, i)|
    ensures (if PastNewline(data, start).None? then [] else Lines(data, PastNewline(data, start).value)) == Lines(data, i)[k..]
    ensures k == 0 ==> Lines(data, i) == []
    ensures k > 0 ==> i + |Flat(Lines(data, i)[..k - 1])| <= start
    ensures k < |Lines(data, i)| ==> i + |Flat(Lines(data, i)[..k])| > start
    decreases |data| - i
  {
    hide Lines, Flat;
    var e := PastNewline(data, i);
    LinesStep(data, i);
    if e.None? {
      PastNewlineNone(data, i, start);
      return 0;
    }
    var line, rest := data[i..e.value], Lines(data, e.value);
    EmptyFlat();
    assert [line] + [] == [line];
    FlatOne(line, []);
    assert Lines(data, i)[..1] == [line];
    if e.value > start {
      PastNewlineIs(data, start, e.value);
      return 1;
    }
    var j := FirstAfter(data, e.value, start);
    assert Lines(data, i)[j + 1..] == rest[j..];
    assert Lines(data, i)[..j + 1] == [line] + rest[..j];
    FlatOne(line, rest[..j]);
    if j > 0 {
      assert Lines(data, i)[..j] == [line] + rest[..j - 1];
      FlatOne(line, rest[..j - 1]);
    } else {
      assert rest == [];
    }
    return j + 1;
  }
}
