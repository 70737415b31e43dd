/** What continuous capture keeps, over any run (agent/state.py, agent/tailer.py, agent/runtime/collector.py).

    A source path shows a succession of streams: a stream is the content of one file from its creation, or from a
    truncation, to the next rotation or truncation, and only grows. The program never sees the stream's number; it is
    carried here to say which physical record a captured record is. */
module Capturing {
  import opened Text
  import opened Reading

  /** The file at the path: its identity, the streams before, and the current stream's content. */
  datatype World = World(identity: Token, earlier: seq<Bytes>, data: Bytes) {
    function Stream(): nat {
      |earlier|
    }

    function Content(stream: nat): Bytes {
      if stream < |earlier| then earlier[stream] else data
    }
  }

  /** One record put into the buffer or the spool: its identity fields, and the physical line it came from. */
  datatype Captured = Captured(generation: nat, offset: nat, stream: nat, text: Bytes)

  /** A read position with its generation; `stream` and `base` (where capture of the stream began) are bookkeeping. */
  datatype Position = Position(cursor: Cursor, generation: nat, stream: nat, base: nat)

  /** A process's memory: where it reads next (None: from byte 0, nothing read yet) and what is not spooled yet. */
  datatype Live = Live(at: Option<Position>, buffer: seq<Captured>)

  /** What is on disk, and the process's memory if one is running. */
  datatype Snapshot = Snapshot(disk: Option<Position>, spooled: seq<Captured>, live: Option<Live>)

  // ----- lines with their offsets -----

  function Numbered(data: Bytes, i: nat): seq<(nat, Bytes)>
    requires i <= |data|
    decreases |data| - i
  {
    match PastNewline(data, i)
    case None => []
    case Some(e) => [(i, data[i..e])] + Numbered(data, e)
  }

  /** The offset just past the last complete line. */
  function SafeEnd(data: Bytes, i: nat): (end: nat)
    requires i <= |data|
    ensures i <= end <= |data| && (end > i ==> data[end - 1] == NEWLINE)
    decreases |data| - i
  {
    match PastNewline(data, i)
    case None => i
    case Some(e) => SafeEnd(data, e)
  }

  /** The numbered lines are the complete lines, and end where those end. */
  lemma {:induction false} NumberedAreLines(data: Bytes, i: nat)
    requires i <= |data|
    ensures |Numbered(data, i)| == |Lines(data, i)| && SafeEnd(data, i) == i + |Flat(Lines(data, i))|
    ensures forall k :: 0 <= k < |Lines(data, i)| ==> Numbered(data, i)[k].1 == Lines(data, i)[k]
    decreases |data| - i
  {
    match PastNewline(data, i)
    case None =>
    case Some(e) =>
      NumberedAreLines(data, e);
      FlatOne(data[i..e], Lines(data, e));
  }

  predicate LineOf(data: Bytes, line: (nat, Bytes)) {
    line.0 <= |data| && PastNewline(data, line.0) == Some(line.0 + |line.1|) && line.1 == data[line.0..line.0 + |line.1|]
  }

  lemma {:induction false} NumberedFacts(data: Bytes, i: nat)
    requires i <= |data|
    ensures forall k :: 0 <= k < |Numbered(data, i)| ==> var line := Numbered(data, i)[k];
      LineOf(data, line) && i <= line.0 < line.0 + |line.1| <= SafeEnd(data, i)
    ensures forall j, k :: 0 <= j < k < |Numbered(data, i)| ==> Numbered(data, i)[j].0 < Numbered(data, i)[k].0
    decreases |data| - i
  {
    match PastNewline(data, i)
    case None =>
    case Some(e) =>
      NumberedFacts(data, e);
  }

  /** A complete line that starts at the base or after a newline. */
  ghost predicate LineAt(data: Bytes, base: nat, off: nat, end: nat) {
    base <= off < end <= |data| && (off == base || data[off - 1] == NEWLINE) && PastNewline(data, off) == Some(end)
  }

  /** A read misses no line: every line from its start to its end is among the numbered ones. */
  lemma {:induction false} NumberedMissesNone(data: Bytes, base: nat, i: nat, off: nat, end: nat)
    requires i <= |data| && base <= i <= off < SafeEnd(data, i) && (i == base || data[i - 1] == NEWLINE) && LineAt(data, base, off, end)
    ensures (off, data[off..end]) in Numbered(data, i)
    decreases |data| - i
  {
    if off > i {
      var e := PastNewline(data, i).value;
      assert data[off - 1] == NEWLINE;
      NumberedMissesNone(data, base, e, off, end);
    }
  }

  /** The records of the lines that parse; each line gives at most one. */
  function Kept(lines: seq<(nat, Bytes)>, generation: nat, stream: nat, parses: Bytes -> bool): seq<Captured> {
    if lines == [] then []
    else
      var earlier := Kept(lines[..|lines| - 1], generation, stream, parses);
      var (off, text) := lines[|lines| - 1];
      if parses(text) then earlier + [Captured(generation, off, stream, text)] else earlier
  }

  function LineOfRecord(r: Captured): (nat, Bytes) {
    (r.offset, r.text)
  }

  predicate FromLines(records: seq<Captured>, lines: seq<(nat, Bytes)>, generation: nat, stream: nat) {
    forall r :: r in records ==> r.generation == generation && r.stream == stream && LineOfRecord(r) in lines
  }

  predicate Increasing(records: seq<Captured>) {
    forall j, k :: 0 <= j < k < |records| ==> records[j].offset < records[k].offset
  }

  lemma {:induction false} KeptFacts(lines: seq<(nat, Bytes)>, generation: nat, stream: nat, parses: Bytes -> bool)
    requires forall j, k :: 0 <= j < k < |lines| ==> lines[j].0 < lines[k].0
    ensures FromLines(Kept(lines, generation, stream, parses), lines, generation, stream)
    ensures Increasing(Kept(lines, generation, stream, parses))
    ensures forall k :: 0 <= k < |lines| && parses(lines[k].1) ==> Has(Kept(lines, generation, stream, parses), generation, lines[k].0)
  {
    if lines != [] {
      var n := |lines| - 1;
      var init := lines[..n];
      KeptFacts(init, generation, stream, parses);
      var earlier, kept := Kept(init, generation, stream, parses), Kept(lines, generation, stream, parses);
      assert lines == init + [lines[n]];
      assert |kept| > |earlier| ==> LineOfRecord(kept[|earlier|]) == lines[n];
      forall r | r in earlier ensures r.offset < lines[n].0 && LineOfRecord(r) in lines {
        var m :| 0 <= m < n && init[m] == LineOfRecord(r);
        assert lines[m].0 < lines[n].0;
      }
      forall k | 0 <= k < |lines| && parses(lines[k].1) ensures Has(kept, generation, lines[k].0) {
        if k < n {
          assert init[k] == lines[k];
          HasMore(earlier, kept[|earlier|..], generation, lines[k].0);
          assert earlier + kept[|earlier|..] == kept;
        } else {
          assert kept[|earlier|].offset == lines[n].0;
        }
      }
    }
  }

  // ----- the invariant -----

  ghost predicate Has(records: seq<Captured>, generation: nat, offset: nat) {
    exists k :: 0 <= k < |records| && records[k].generation == generation && records[k].offset == offset
  }

  lemma HasMore(a: seq<Captured>, b: seq<Captured>, generation: nat, offset: nat)
    ensures Has(a, generation, offset) || Has(b, generation, offset) ==> Has(a + b, generation, offset)
  {
    if Has(a, generation, offset) {
      var k :| 0 <= k < |a| && a[k].generation == generation && a[k].offset == offset;
      assert (a + b)[k] == a[k];
    } else if Has(b, generation, offset) {
      var k :| 0 <= k < |b| && b[k].generation == generation && b[k].offset == offset;
      assert (a + b)[|a| + k] == b[k];
    }
  }

  /** Every line of the position's stream from its base up to the position that parses is among the records. */
  ghost predicate Holds(records: seq<Captured>, p: Position, w: World, parses: Bytes -> bool) {
    var data, upto := w.Content(p.stream), p.cursor.offset;
    && p.base <= upto <= |data| && (upto == p.base || data[upto - 1] == NEWLINE)
    && forall off: nat, end: nat :: off < upto && LineAt(data, p.base, off, end) && parses(data[off..end]) ==> Has(records, p.generation, off)
  }

  /** A read from this position would report a rotation or a truncation. */
  predicate Visible(p: Position, w: World) {
    p.cursor.identity.Some? && (p.cursor.identity != Some(w.identity) || |w.data| < p.cursor.offset)
  }

  /** The position is in the current stream, or its stream is over and a read will show it. */
  predicate Placed(p: Position, w: World) {
    p.stream <= w.Stream() && p.cursor.identity.Some?
    && if p.stream == w.Stream() then p.cursor.identity == Some(w.identity) && p.cursor.offset <= |w.data| else Visible(p, w)
  }

  /** The record is a whole line of its stream. */
  predicate Physical(w: World, r: Captured) {
    r.stream <= w.Stream() && LineOf(w.Content(r.stream), (r.offset, r.text))
  }

  /** Generations number the streams in order. */
  predicate InOrder(a: Captured, b: Captured) {
    (a.generation == b.generation ==> a.stream == b.stream) && (a.generation < b.generation ==> a.stream < b.stream)
  }

  /** A record's generation against the saved one: older ones belong to older streams; one above it only to the
      current stream, whose start has not been saved. */
  predicate Behind(w: World, disk: Option<Position>, r: Captured) {
    match disk
    case None => r.generation == 0 && r.stream == w.Stream()
    case Some(d) =>
      || (r.generation < d.generation && r.stream < d.stream)
      || (r.generation == d.generation && r.stream == d.stream)
      || (r.generation == d.generation + 1 && d.stream < r.stream == w.Stream())
  }

  ghost predicate SpoolOk(w: World, disk: Option<Position>, spooled: seq<Captured>) {
    && (forall k :: 0 <= k < |spooled| ==> Physical(w, spooled[k]) && Behind(w, disk, spooled[k]))
    && (forall j, k :: 0 <= j < |spooled| && 0 <= k < |spooled| ==> InOrder(spooled[j], spooled[k]))
  }

  ghost predicate BufferOk(w: World, p: Position, buffer: seq<Captured>) {
    forall k :: 0 <= k < |buffer| ==>
      buffer[k].generation == p.generation && buffer[k].stream == p.stream && Physical(w, buffer[k])
  }

  /** The process's position continues the saved one, or is one generation on, in the current stream. */
  predicate Continues(w: World, disk: Option<Position>, p: Position) {
    match disk
    case None => p.generation == 0 && p.stream == w.Stream()
    case Some(d) =>
      || (p.generation == d.generation && p.stream == d.stream && p.base == d.base)
      || (p.generation == d.generation + 1 && d.stream < p.stream == w.Stream())
  }

  ghost predicate LiveOk(w: World, parses: Bytes -> bool, s: Snapshot, live: Live) {
    match live.at
    case None => s.disk.None? && live.buffer == []
    case Some(p) =>
      Placed(p, w) && Continues(w, s.disk, p) && BufferOk(w, p, live.buffer) && Holds(s.spooled + live.buffer, p, w, parses)
  }

  ghost predicate Inv(w: World, parses: Bytes -> bool, s: Snapshot) {
    && SpoolOk(w, s.disk, s.spooled)
    && (s.disk.Some? ==> Placed(s.disk.value, w) && Holds(s.spooled, s.disk.value, w, parses))
    && (s.live.Some? ==> LiveOk(w, parses, s, s.live.value))
  }

  lemma NothingYet(w: World, parses: Bytes -> bool)
    ensures Inv(w, parses, Snapshot(None, [], None))
  {
  }

  // ----- what the process does -----

  lemma HoldsMore(records: seq<Captured>, more: seq<Captured>, p: Position, w: World, parses: Bytes -> bool)
    requires Holds(records, p, w, parses)
    requires forall generation: nat, off: nat :: Has(records, generation, off) ==> Has(more, generation, off)
    ensures Holds(more, p, w, parses)
  {
  }

  /** Spooling buffered records, before any state is saved. */
  lemma SpoolKeeps(w: World, parses: Bytes -> bool, s: Snapshot, chunk: seq<Captured>)
    requires Inv(w, parses, s) && s.live.Some? && s.live.value.at.Some?
    requires forall r :: r in chunk ==> r in s.live.value.buffer
    ensures Inv(w, parses, s.(spooled := s.spooled + chunk))
  {
    hide Physical, Holds, Has, Placed, Visible;
    var p, buffer := s.live.value.at.value, s.live.value.buffer;
    var more := s.spooled + chunk;
    forall k | 0 <= k < |more| ensures Physical(w, more[k]) && Behind(w, s.disk, more[k]) {
      if k >= |s.spooled| { assert more[k] in chunk; }
    }
    forall j, k | 0 <= j < |more| && 0 <= k < |more| ensures InOrder(more[j], more[k]) {
      assert Behind(w, s.disk, more[j]) && Behind(w, s.disk, more[k]);
      assert j >= |s.spooled| ==> more[j] in chunk;
      assert k >= |s.spooled| ==> more[k] in chunk;
    }
    forall generation: nat, off: nat ensures Has(s.spooled, generation, off) ==> Has(more, generation, off) {
      HasMore(s.spooled, chunk, generation, off);
    }
    forall generation: nat, off: nat ensures Has(s.spooled + buffer, generation, off) ==> Has(more + buffer, generation, off) {
      HasInParts(s.spooled, chunk, buffer, generation, off);
    }
    if s.disk.Some? { HoldsMore(s.spooled, more, s.disk.value, w, parses); }
    HoldsMore(s.spooled + buffer, more + buffer, p, w, parses);
  }

  lemma HasInParts(a: seq<Captured>, b: seq<Captured>, c: seq<Captured>, generation: nat, off: nat)
    ensures Has(a + c, generation, off) ==> Has((a + b) + c, generation, off)
  {
    if Has(a + c, generation, off) {
      var k :| 0 <= k < |a + c| && (a + c)[k].generation == generation && (a + c)[k].offset == off;
      assert (a + b + c)[if k < |a| then k else k + |b|] == (a + c)[k];
    }
  }

  lemma HasInSpool(a: seq<Captured>, b: seq<Captured>, generation: nat, off: nat)
    requires forall r :: r in b ==> r in a
    ensures Has(a + b, generation, off) ==> Has(a, generation, off)
  {
    if Has(a + b, generation, off) {
      var k :| 0 <= k < |a + b| && (a + b)[k].generation == generation && (a + b)[k].offset == off;
      if k >= |a| {
        assert (a + b)[k] in b;
        var m :| 0 <= m < |a| && a[m] == (a + b)[k];
      }
    }
  }

  /** Saving the position once everything buffered is spooled. */
  lemma PersistKeeps(w: World, parses: Bytes -> bool, s: Snapshot)
    requires Inv(w, parses, s) && s.live.Some? && s.live.value.at.Some?
    requires forall r :: r in s.live.value.buffer ==> r in s.spooled
    ensures Inv(w, parses, Snapshot(s.live.value.at, s.spooled, Some(Live(s.live.value.at, []))))
    ensures Inv(w, parses, Snapshot(s.live.value.at, s.spooled, None))
  {
    hide Physical, Holds, Has, Placed, Visible;
    var p, buffer := s.live.value.at.value, s.live.value.buffer;
    forall k | 0 <= k < |s.spooled| ensures Behind(w, Some(p), s.spooled[k]) {
      assert Behind(w, s.disk, s.spooled[k]);
    }
    forall generation: nat, off: nat ensures Has(s.spooled + buffer, generation, off) ==> Has(s.spooled, generation, off) {
      HasInSpool(s.spooled, buffer, generation, off);
    }
    HoldsMore(s.spooled + buffer, s.spooled, p, w, parses);
    assert s.spooled + [] == s.spooled;
  }

  /** Forgetting the buffer once it is spooled, although the position could not be saved. */
  lemma ForgetKeeps(w: World, parses: Bytes -> bool, s: Snapshot)
    requires Inv(w, parses, s) && s.live.Some? && s.live.value.at.Some?
    requires forall r :: r in s.live.value.buffer ==> r in s.spooled
    ensures Inv(w, parses, s.(live := Some(Live(s.live.value.at, []))))
  {
    hide Physical, Holds, Has, Placed, Visible;
    var p, buffer := s.live.value.at.value, s.live.value.buffer;
    forall generation: nat, off: nat ensures Has(s.spooled + buffer, generation, off) ==> Has(s.spooled, generation, off) {
      HasInSpool(s.spooled, buffer, generation, off);
    }
    HoldsMore(s.spooled + buffer, s.spooled, p, w, parses);
    assert s.spooled + [] == s.spooled;
  }

  /** Where a read that starts at `start` leaves the process. */
  function AfterRead(w: World, start: nat, generation: nat, base: nat): Position
    requires start <= |w.data|
  {
    Position(Cursor(Some(w.identity), SafeEnd(w.data, start)), generation, w.Stream(), base)
  }

  function ReadRecords(w: World, start: nat, generation: nat, parses: Bytes -> bool): seq<Captured>
    requires start <= |w.data|
  {
    Kept(Numbered(w.data, start), generation, w.Stream(), parses)
  }

  lemma ReadFacts(w: World, start: nat, generation: nat, parses: Bytes -> bool)
    requires start <= |w.data|
    ensures var kept := ReadRecords(w, start, generation, parses);
      && BufferOk(w, AfterRead(w, start, generation, 0), kept) && Increasing(kept)
      && (forall r :: r in kept ==> start <= r.offset < SafeEnd(w.data, start))
  {
    hide Numbered, Kept, SafeEnd;
    var lines, kept := Numbered(w.data, start), ReadRecords(w, start, generation, parses);
    NumberedFacts(w.data, start);
    KeptFacts(lines, generation, w.Stream(), parses);
    forall r | r in kept ensures Physical(w, r) && start <= r.offset < SafeEnd(w.data, start) {
      var m :| 0 <= m < |lines| && lines[m] == LineOfRecord(r);
    }
  }

  /** What was captured up to the start of a read, with what the read keeps, is everything up to its end. */
  lemma ReadHolds(records: seq<Captured>, start: nat, generation: nat, base: nat, w: World, parses: Bytes -> bool)
    requires start <= |w.data|
    requires Holds(records, Position(Cursor(Some(w.identity), start), generation, w.Stream(), base), w, parses)
    ensures Holds(records + ReadRecords(w, start, generation, parses), AfterRead(w, start, generation, base), w, parses)
  {
    hide Numbered, Kept, Has, PastNewline;
    var data, kept, p := w.data, ReadRecords(w, start, generation, parses), AfterRead(w, start, generation, base);
    NumberedFacts(data, start);
    KeptFacts(Numbered(data, start), generation, w.Stream(), parses);
    forall off: nat, end: nat | off < p.cursor.offset && LineAt(data, base, off, end) && parses(data[off..end])
      ensures Has(records + kept, generation, off)
    {
      if off >= start {
        NumberedMissesNone(data, base, start, off, end);
        var m :| 0 <= m < |Numbered(data, start)| && Numbered(data, start)[m] == (off, data[off..end]);
      }
      HasMore(records, kept, generation, off);
    }
  }

  /** Reading on in the current stream. */
  lemma ContinueKeeps(w: World, parses: Bytes -> bool, s: Snapshot)
    requires Inv(w, parses, s) && s.live.Some? && s.live.value.at.Some? && !Visible(s.live.value.at.value, w)
    ensures var p, buffer := s.live.value.at.value, s.live.value.buffer;
      && p.cursor.offset <= |w.data|
      && Inv(w, parses, s.(live := Some(Live(Some(AfterRead(w, p.cursor.offset, p.generation, p.base)),
                                             buffer + ReadRecords(w, p.cursor.offset, p.generation, parses)))))
  {
    hide Physical, Kept, Numbered, SpoolOk, Behind, Has;
    var p, buffer := s.live.value.at.value, s.live.value.buffer;
    var start := p.cursor.offset;
    var kept := ReadRecords(w, start, p.generation, parses);
    assert p == Position(Cursor(Some(w.identity), start), p.generation, w.Stream(), p.base);
    ReadFacts(w, start, p.generation, parses);
    ReadHolds(s.spooled + buffer, start, p.generation, p.base, w, parses);
    assert s.spooled + buffer + kept == s.spooled + (buffer + kept);
  }

  /** The first read of a replayed file, from byte 0; and the first read of a new stream once the old one is flushed:
      byte 0 again, one generation on. */
  lemma FreshKeeps(w: World, parses: Bytes -> bool, s: Snapshot, generation: nat)
    requires Inv(w, parses, s) && s.live.Some? && s.live.value.buffer == []
    requires match s.live.value.at
      case None => generation == 0
      case Some(p) => Visible(p, w) && generation == p.generation + 1
    ensures Inv(w, parses, s.(live := Some(Live(Some(AfterRead(w, 0, generation, 0)), ReadRecords(w, 0, generation, parses)))))
  {
    hide Physical, Kept, Numbered, SpoolOk, Behind, Has;
    var kept := ReadRecords(w, 0, generation, parses);
    ReadFacts(w, 0, generation, parses);
    ReadHolds(s.spooled, 0, generation, 0, w, parses);
  }

  /** The position of a process that starts at a byte of the current stream, with nothing saved. */
  function StartingAt(w: World, at: nat): Position {
    Position(Cursor(Some(w.identity), at), 0, w.Stream(), at)
  }

  /** Starting a process from what is on disk: at the saved position; or, with nothing saved, before the first byte, at
      a byte of the file (not saved), or at its end (saved at once, if the write succeeds). */
  lemma BootKeeps(w: World, parses: Bytes -> bool, s: Snapshot)
    requires Inv(w, parses, s)
    ensures Inv(w, parses, s.(live := Some(Live(s.disk, []))))
    ensures s.disk.None? ==> forall at: nat :: at <= |w.data| ==>
      Inv(w, parses, Snapshot(None, s.spooled, Some(Live(Some(StartingAt(w, at)), []))))
    ensures var eof := StartingAt(w, |w.data|);
      s.disk.None? ==> (Inv(w, parses, Snapshot(Some(eof), s.spooled, Some(Live(Some(eof), []))))
                        && Inv(w, parses, Snapshot(Some(eof), s.spooled, None)))
  {
    hide Physical, Has;
    assert s.spooled + [] == s.spooled;
    forall k | 0 <= k < |s.spooled| ensures s.disk.None? ==> Behind(w, Some(StartingAt(w, |w.data|)), s.spooled[k]) {
      assert Behind(w, s.disk, s.spooled[k]);
    }
    if s.disk.None? {
      forall at: nat | at <= |w.data|
        ensures Inv(w, parses, Snapshot(None, s.spooled, Some(Live(Some(StartingAt(w, at)), []))))
      {
        assert LiveOk(w, parses, s, Live(Some(StartingAt(w, at)), []));
      }
    }
  }

  // ----- what happens to the file -----

  /** Growth that does not hide a truncation: a file that a read would find shrunk stays shorter than the cursor. */
  predicate StaysVisible(p: Position, w: World, bytes: Bytes) {
    Visible(p, w) ==> Visible(p, w.(data := w.data + bytes))
  }

  predicate MayAppend(w: World, s: Snapshot, bytes: Bytes) {
    (s.disk.Some? ==> StaysVisible(s.disk.value, w, bytes))
    && (s.live.Some? && s.live.value.at.Some? ==> StaysVisible(s.live.value.at.value, w, bytes))
  }

  lemma PhysicalGrows(w: World, bytes: Bytes, r: Captured)
    requires Physical(w, r)
    ensures Physical(w.(data := w.data + bytes), r)
  {
    if r.stream == w.Stream() {
      var end := r.offset + |r.text|;
      PastNewlineIs(w.data + bytes, r.offset, end);
      assert (w.data + bytes)[r.offset..end] == w.data[r.offset..end];
    }
  }

  lemma HoldsGrows(records: seq<Captured>, p: Position, w: World, bytes: Bytes, parses: Bytes -> bool)
    requires Holds(records, p, w, parses)
    ensures Holds(records, p, w.(data := w.data + bytes), parses)
  {
    hide Has;
    var data, more, upto := w.Content(p.stream), w.(data := w.data + bytes).Content(p.stream), p.cursor.offset;
    assert data <= more;
    forall off: nat, end: nat | off < upto && LineAt(more, p.base, off, end) && parses(more[off..end])
      ensures Has(records, p.generation, off)
    {
      assert end <= upto by {
        assert more[upto - 1] == NEWLINE;
      }
      PastNewlineIs(data, off, end);
      assert more[off..end] == data[off..end];
    }
  }

  lemma AppendKeeps(w: World, parses: Bytes -> bool, s: Snapshot, bytes: Bytes)
    requires Inv(w, parses, s) && MayAppend(w, s, bytes)
    ensures Inv(w.(data := w.data + bytes), parses, s)
  {
    hide Physical, Holds, InOrder;
    var w' := w.(data := w.data + bytes);
    forall r | Physical(w, r) ensures Physical(w', r) { PhysicalGrows(w, bytes, r); }
    assert forall r :: Behind(w, s.disk, r) ==> Behind(w', s.disk, r);
    if s.disk.Some? { HoldsGrows(s.spooled, s.disk.value, w, bytes, parses); }
    if s.live.Some? && s.live.value.at.Some? {
      HoldsGrows(s.spooled + s.live.value.buffer, s.live.value.at.value, w, bytes, parses);
    }
  }

  /** No record of a generation above the saved one exists yet, in the spool or in memory. */
  predicate Settled(s: Snapshot) {
    match s.disk
    case None => s.spooled == [] && (s.live.Some? ==> s.live.value.at.None?)
    case Some(d) =>
      (forall k :: 0 <= k < |s.spooled| ==> s.spooled[k].generation <= d.generation)
      && (s.live.Some? && s.live.value.at.Some? ==> s.live.value.at.value.generation == d.generation)
  }

  /** A rotation or truncation to new content: the previous one's generation has been saved, and reads will see it. */
  predicate MayBreak(w: World, s: Snapshot, identity: Token, data: Bytes) {
    var w' := World(identity, w.earlier + [w.data], data);
    Settled(s)
    && (s.disk.Some? ==> Visible(s.disk.value, w'))
    && (s.live.Some? && s.live.value.at.Some? ==> Visible(s.live.value.at.value, w'))
  }

  lemma BreakKeeps(w: World, parses: Bytes -> bool, s: Snapshot, identity: Token, data: Bytes)
    requires Inv(w, parses, s) && MayBreak(w, s, identity, data)
    ensures Inv(World(identity, w.earlier + [w.data], data), parses, s)
  {
    hide LineOf, InOrder, Has, LineAt;
    var w' := World(identity, w.earlier + [w.data], data);
    assert forall stream: nat :: stream <= w.Stream() ==> w'.Content(stream) == w.Content(stream);
    assert forall r :: Physical(w, r) ==> Physical(w', r);
    forall k | 0 <= k < |s.spooled| ensures Behind(w', s.disk, s.spooled[k]) {
      assert Behind(w, s.disk, s.spooled[k]);
    }
  }
}
