/** The continuous collector of one source (agent/runtime/collector.py over agent/tailer.py, agent/state.py and
    agent/spool.py): reading, buffering, spooling before the cursor is saved, and generations. */
module Collecting {
  import opened Text
  import opened Reading
  import opened Spooling
  import opened Capturing
  import Identity

  // Neither a saved cursor nor a real file exceeds this many bytes.
  const MAX_OFFSET: nat := 1_000_000_000_000_000_000

  datatype SpoolBatch = SpoolBatch(range: Range, records: seq<Captured>)

  function Records(spool: seq<SpoolBatch>): seq<Captured> {
    if spool == [] then [] else Records(spool[..|spool| - 1]) + spool[|spool| - 1].records
  }

  /** A batch's name tells its content: its generation, and a byte range that starts at its first record. */
  predicate BatchOk(b: SpoolBatch) {
    && b.records != [] && b.range.start == b.records[0].offset && b.range.end <= MAX_OFFSET
    && Increasing(b.records)
    && forall r :: r in b.records ==> r.generation == b.range.generation && b.range.start <= r.offset < b.range.end
  }

  predicate BatchesOk(spool: seq<SpoolBatch>) {
    forall b :: b in spool ==> BatchOk(b)
  }

  /** No batch has more records than are flushed at a time. */
  predicate SizesOk(spool: seq<SpoolBatch>, max: nat) {
    forall b :: b in spool ==> |b.records| <= max
  }

  // ----- the tailer -----

  datatype TailResult = TailResult(lines: seq<(nat, Bytes)>, cursor: Option<Cursor>, existed: bool, rotated: bool, truncated: bool)

  /** Rotation under any other identity, or a file now shorter than the cursor. */
  datatype Discontinuity = RotatedTo(identity: Token) | Shrunk

  function Candidate(view: View, cursor: Option<Cursor>): Option<Discontinuity> {
    if !view.File? || cursor.None? || cursor.value.identity.None? then None
    else if cursor.value.identity.value != view.identity then Some(RotatedTo(view.identity))
    else if view.before < cursor.value.offset then Some(Shrunk)
    else None
  }

  function StartAt(view: View, cursor: Option<Cursor>): nat {
    if cursor.None? || cursor.value.identity.None? || Candidate(view, cursor).Some? then 0 else cursor.value.offset
  }

  /** All new complete lines with the offsets they begin at; a discontinuity reads from byte 0 and is reported. */
  method ReadNewLines(view: View, cursor: Option<Cursor>) returns (result: TailResult)
    ensures !view.File? ==> !result.existed && result.lines == [] && !result.rotated && !result.truncated
    ensures view.File? ==>
      var start, candidate := StartAt(view, cursor), Candidate(view, cursor);
      && result.existed
      && result.rotated == (candidate.Some? && candidate.value.RotatedTo?)
      && result.truncated == (candidate == Some(Shrunk))
      && (start <= |view.data| ==>
            && result.lines == Numbered(view.data, start)
            && result.cursor == Some(Cursor(Some(view.identity), SafeEnd(view.data, start))))
      && (start > |view.data| ==> result.lines == [] && result.cursor == Some(Cursor(Some(view.identity), start)))
  {
    if !view.File? { return TailResult([], cursor, false, false, false); }
    var start: nat := 0;
    var rotated, truncated := false, false;
    if cursor.None? || cursor.value.identity.None? {
    } else if cursor.value.identity.value != view.identity {
      rotated := true;
    } else if view.before < cursor.value.offset {
      truncated := true;
    } else {
      start := cursor.value.offset;
    }
    if start > |view.data| {
      return TailResult([], Some(Cursor(Some(view.identity), start)), true, rotated, truncated);
    }
    var lines, end := ReadSafeLines(view.data, start);
    return TailResult(lines, Some(Cursor(Some(view.identity), end)), true, rotated, truncated);
  }

  lemma NumberedStep(data: Bytes, i: nat)
    requires i <= |data|
    ensures match PastNewline(data, i)
      case None => Numbered(data, i) == [] && SafeEnd(data, i) == i
      case Some(e) => Numbered(data, i) == [(i, data[i..e])] + Numbered(data, e) && SafeEnd(data, i) == SafeEnd(data, e)
  {
  }

  method ReadSafeLines(data: Bytes, start: nat) returns (lines: seq<(nat, Bytes)>, safe: nat)
    requires start <= |data|
    ensures lines == Numbered(data, start) && safe == SafeEnd(data, start)
  {
    hide Numbered, SafeEnd;
    lines, safe := [], start;
    while true
      invariant start <= safe <= |data|
      invariant Numbered(data, start) == lines + Numbered(data, safe) && SafeEnd(data, start) == SafeEnd(data, safe)
      decreases |data| - safe
    {
      var raw := Readline(data, safe);
      NumberedStep(data, safe);
      if !Complete(raw) { return; }
      lines, safe := lines + [(safe, raw)], safe + |raw|;
    }
  }

  // ----- what is on disk -----

  /** The state file's entry and the spool of one source. `writesLeft` is how many more durable writes succeed before
      one raises; None: none ever does. */
  class Store {
    var state: Option<Position>
    var spool: seq<SpoolBatch>
    var writesLeft: Option<nat>

    constructor ()
      ensures state.None? && spool == []
    {
      state, spool, writesLeft := None, [], None;
    }

    method Begin() returns (ok: bool)
      modifies this`writesLeft
      ensures ok <==> old(writesLeft) != Some(0)
      ensures old(writesLeft).None? ==> writesLeft.None?
    {
      ok := writesLeft != Some(0);
      if ok && writesLeft.Some? { writesLeft := Some(writesLeft.value - 1); }
    }

    method WriteBatch(records: seq<Captured>, generation: nat, start: nat, end: nat) returns (ok: bool)
      requires Refusal(|records|, generation, start, end).None?
      modifies this
      ensures state == old(state)
      ensures spool == if ok then old(spool) + [SpoolBatch(Range(generation, start, end), records)] else old(spool)
      ensures (ok <==> old(writesLeft) != Some(0)) && (old(writesLeft).None? ==> writesLeft.None?)
    {
      ok := Begin();
      if ok { spool := spool + [SpoolBatch(Range(generation, start, end), records)]; }
    }

    method SaveState(position: Position) returns (ok: bool)
      modifies this
      ensures spool == old(spool) && state == if ok then Some(position) else old(state)
      ensures (ok <==> old(writesLeft) != Some(0)) && (old(writesLeft).None? ==> writesLeft.None?)
    {
      ok := Begin();
      if ok { state := Some(position); }
    }
  }

  // ----- the collector -----

  /** How a source without a saved position starts: at the end of its file, at the first byte, or at a given one. */
  datatype Mode = Normal | Replay | Offset(at: nat)

  /** The generation to save with a read, from the one before. */
  function AdvanceGeneration(prior: Option<nat>, rotated: bool, truncated: bool): nat {
    if prior.None? then 0
    else if rotated || truncated then prior.value + 1
    else prior.value
  }

  /** Where capture of a stream began: at byte 0 for every stream after the first and for a replay, at the configured
      byte, or at the end of the file as it was first seen. */
  predicate BaseIs(mode: Mode, generation: nat, base: nat) {
    (generation > 0 || mode == Replay ==> base == 0) && (generation == 0 && mode.Offset? ==> base == mode.at)
  }

  predicate StateIs(mode: Mode, state: Option<Position>) {
    state.Some? ==> BaseIs(mode, state.value.generation, state.value.base)
  }

  /** No line ends at or after the byte. */
  predicate NoLineEnds(data: Bytes, from: nat) {
    forall k :: from <= k < |data| ==> data[k] != NEWLINE
  }

  class SourceCollector {
    const store: Store
    const mode: Mode
    const batchMax: nat
    const parses: Bytes -> bool

    var bootstrapped: bool
    var readCursor: Option<Cursor>
    var generation: nat
    var buffer: seq<Captured>
    var bufferGeneration: Option<nat>
    var bufferEnd: Option<nat>
    var pendingCursor: Option<Cursor>
    var pending: Option<Discontinuity>

    // The stream the read cursor is in, and where its capture began: never looked at.
    var stream: nat
    var base: nat

    constructor (store: Store, mode: Mode, batchMax: nat, parses: Bytes -> bool)
      requires batchMax > 0 && BatchesOk(store.spool) && SizesOk(store.spool, batchMax) && StateIs(mode, store.state)
      ensures Valid() && !bootstrapped && this.store == store
      ensures this.mode == mode && this.batchMax == batchMax && this.parses == parses
    {
      this.store, this.mode, this.batchMax, this.parses := store, mode, batchMax, parses;
      bootstrapped, readCursor, generation, buffer := false, None, 0, [];
      bufferGeneration, bufferEnd, pendingCursor, pending := None, None, None, None;
      stream, base := 0, 0;
    }

    ghost predicate Valid()
      reads this, store
    {
      && batchMax > 0 && BatchesOk(store.spool) && SizesOk(store.spool, batchMax) && StateIs(mode, store.state)
      && (readCursor.Some? ==> BaseIs(mode, generation, base)) && (bootstrapped && readCursor.None? ==> mode == Replay)
      && Increasing(buffer) && (forall r :: r in buffer ==> r.generation == generation)
      && (pendingCursor.Some? ==> pendingCursor == readCursor)
      && (readCursor.None? ==> generation == 0)
      && (if buffer == [] then bufferGeneration.None?
          else
            && bootstrapped && readCursor.Some? && pendingCursor == readCursor && bufferGeneration == Some(generation)
            && bufferEnd == Some(readCursor.value.offset) && readCursor.value.offset <= MAX_OFFSET
            && forall r :: r in buffer ==> r.offset < readCursor.value.offset)
      && (!bootstrapped ==> buffer == [] && readCursor.None? && pending.None?)
    }

    function At(): Option<Position>
      reads this
    {
      if readCursor.None? then None else Some(Position(readCursor.value, generation, stream, base))
    }

    /** What is on disk, with this process's memory. */
    function Snap(): Snapshot
      reads this, store
    {
      Snapshot(store.state, Records(store.spool), if bootstrapped then Some(Live(At(), buffer)) else None)
    }

    /** Whether a poll of this file finds where to go on from. */
    predicate CanStart(view: View)
      reads this, store
    {
      bootstrapped || store.state.Some? || mode == Replay || view.File?
    }

    /** The cursor a poll goes by: the one in memory; in a new process the saved one; and with nothing saved none for a
        replay, the configured byte, or the end of the file. */
    function GoesBy(view: View): Option<Cursor>
      reads this, store
      requires CanStart(view)
    {
      if bootstrapped then readCursor
      else if store.state.Some? then Some(store.state.value.cursor)
      else if mode == Replay then None
      else Some(Cursor(Some(view.identity), if mode.Offset? then mode.at else view.before))
    }

    function GenerationBy(): nat
      reads this, store
    {
      if bootstrapped then generation else if store.state.Some? then store.state.value.generation else 0
    }

    /** The poll would see a rotation or a truncation that it has not noted. */
    predicate FirstSight(view: View)
      reads this, store
      requires CanStart(view)
    {
      Candidate(view, GoesBy(view)).Some? && (bootstrapped ==> Candidate(view, GoesBy(view)) != pending)
    }

    /** The read cursor is in the file as it is, and past every line that has ended. */
    predicate AtEnd(w: World)
      reads this
    {
      bootstrapped && readCursor.Some? && readCursor.value.identity == Some(w.identity) && stream == w.Stream()
      && readCursor.value.offset <= |w.data| && NoLineEnds(w.data, readCursor.value.offset)
    }

    /** And what is not waiting to be spooled is saved. */
    predicate CaughtUp(w: World)
      reads this, store
    {
      AtEnd(w) && pending.None? && (buffer == [] ==> store.state == At())
    }

    /** The last poll noted that the file is another one, or shorter. */
    predicate Noted(w: World)
      reads this, store
    {
      bootstrapped && pending.Some? && pending == Candidate(File(w.identity, |w.data|, w.data, |w.data|), readCursor)
    }

    /** Spools the buffer in chunks, and only then saves the cursor. A write that raises leaves the object as the
        code does at that point: the whole buffer, or an empty one whose cursor is not saved. */
    method Flush(ghost w: World) returns (ok: bool)
      requires Valid() && Inv(w, parses, Snap())
      modifies this, store
      ensures Valid() && Inv(w, parses, Snap()) && (ok ==> buffer == []) && (buffer == old(buffer) || buffer == [])
      ensures store.state == old(store.state) || store.state == At()
      ensures bootstrapped == old(bootstrapped) && readCursor == old(readCursor) && generation == old(generation)
              && stream == old(stream) && base == old(base) && pending == old(pending)
      ensures ok && old(buffer) != [] ==> store.state == At()
      ensures old(buffer) == [] ==> ok && store.state == old(store.state) && store.spool == old(store.spool)
      ensures old(store.writesLeft).None? ==> ok && store.writesLeft.None?
    {
      hide Inv, Records, BatchesOk, Increasing, SizesOk;
      if buffer == [] { return true; }
      var i := 0;
      while i < |buffer|
        invariant i <= |buffer| && Valid() && Inv(w, parses, Snap())
        invariant forall r :: r in buffer[..i] ==> r in Records(store.spool)
        invariant unchanged(this) && store.state == old(store.state)
        invariant old(store.writesLeft).None? ==> store.writesLeft.None?
        decreases |buffer| - i
      {
        var next := if i + batchMax <= |buffer| then i + batchMax else |buffer|;
        ok := SpoolChunk(w, i, next);
        if !ok { return; }
        assert buffer[..next] == buffer[..i] + buffer[i..next];
        i := next;
      }
      assert buffer[..|buffer|] == buffer;
      PersistKeeps(w, parses, Snap());
      ForgetKeeps(w, parses, Snap());
      buffer, bufferGeneration := [], None;
      assert Increasing(buffer) by { NoneIncreasing(); }
      ok := PersistState();
    }

    /** Installs one chunk of the buffer as a batch; its range ends where the next chunk begins. */
    method SpoolChunk(ghost w: World, i: nat, next: nat) returns (ok: bool)
      requires Valid() && Inv(w, parses, Snap()) && i < next <= |buffer| && next - i <= batchMax
      modifies store
      ensures Valid() && Inv(w, parses, Snap()) && store.state == old(store.state)
      ensures !ok ==> store.spool == old(store.spool)
      ensures ok ==> Records(store.spool) == old(Records(store.spool)) + buffer[i..next]
      ensures old(store.writesLeft).None? ==> ok && store.writesLeft.None?
    {
      hide Inv, Records, BatchOk, Power10;
      var chunk := buffer[i..next];
      var end := if next < |buffer| then buffer[next].offset else bufferEnd.value;
      ChunkFacts(buffer, i, next, end, bufferGeneration.value);
      SpoolKeeps(w, parses, Snap(), chunk);
      ghost var spool := store.spool;
      ok := store.WriteBatch(chunk, bufferGeneration.value, chunk[0].offset, end);
      if !ok { return; }
      OneMoreBatch(spool, SpoolBatch(Range(bufferGeneration.value, chunk[0].offset, end), chunk));
    }

    method PersistState() returns (ok: bool)
      requires pendingCursor.Some?
      modifies store
      ensures store.spool == old(store.spool)
      ensures store.state == if ok then Some(Position(pendingCursor.value, generation, stream, base)) else old(store.state)
      ensures old(store.writesLeft).None? ==> ok && store.writesLeft.None?
    {
      ok := store.SaveState(Position(pendingCursor.value, generation, stream, base));
    }

    predicate ShouldFlush(due: bool)
      reads this
    {
      buffer != [] && (|buffer| >= batchMax || due)
    }

    /** A configured start lies in the file: beyond its end the file would look truncated, and start again at byte 0
        under the next generation. */
    predicate MayStart(w: World)
      reads this, store
    {
      !bootstrapped && store.state.None? && mode.Offset? ==> mode.at <= |w.data|
    }

    /** Takes up the saved position, or seeds a new one: before byte 0, at a given byte, or at the end of the file,
        which alone is saved at once. */
    method Bootstrap(ghost w: World, view: View, stream: nat) returns (ok: bool, ready: bool)
      requires Valid() && Inv(w, parses, Snap())
      requires view.File? && !bootstrapped ==> Shows(view, w) && stream == w.Stream() && MayStart(w)
      modifies this, store
      ensures Valid() && Inv(w, parses, Snap()) && (ready ==> bootstrapped) && store.spool == old(store.spool)
      ensures old(bootstrapped) ==> ok && ready && unchanged(this) && unchanged(store)
      ensures !old(bootstrapped) ==> pending.None?
      ensures ok ==> (ready <==> old(CanStart(view)))
      ensures ok && ready ==> readCursor == old(GoesBy(view)) && generation == old(GenerationBy())
      ensures ok && ready && !old(bootstrapped) ==> buffer == []
      ensures ok && ready && !old(bootstrapped) && old(store.state).Some? ==> At() == old(store.state) == store.state
      ensures ok && ready && !old(bootstrapped) && old(store.state).None? && mode == Normal ==>
        base == view.before && store.state == At()
      ensures ok && !ready ==> !bootstrapped
      ensures old(store.writesLeft).None? ==> ok && store.writesLeft.None?
    {
      hide Inv, Records, BatchOk;
      if bootstrapped { return true, true; }
      BootKeeps(w, parses, Snap());
      if store.state.Some? {
        var saved := store.state.value;
        readCursor, generation, this.stream, base := Some(saved.cursor), saved.generation, saved.stream, saved.base;
        bootstrapped, pendingCursor := true, None;
        return true, true;
      }
      if mode == Replay {
        readCursor, generation, bootstrapped := None, 0, true;
        return true, true;
      }
      if !view.File? { return true, false; }
      if mode.Offset? {
        readCursor, generation, this.stream, base, bootstrapped :=
          Some(Cursor(Some(view.identity), mode.at)), 0, stream, mode.at, true;
        assert Snap() == Snapshot(None, Records(store.spool), Some(Live(Some(StartingAt(w, mode.at)), [])));
        return true, true;
      }
      var seed := Position(Cursor(Some(view.identity), view.before), 0, stream, view.before);
      readCursor, generation, this.stream, base, bootstrapped := Some(seed.cursor), 0, stream, view.before, true;
      ok := store.SaveState(seed);
      ready := true;
    }

    /** One poll. A first sighting of a rotation or truncation only notes it; the same one again, against the same
        cursor, flushes the old generation and starts the next from byte 0. `due` says the buffer is old enough. */
    method PollOnce(ghost w: World, view: View, stream: nat, due: bool) returns (ok: bool)
      requires Valid() && Inv(w, parses, Snap()) && |w.data| <= MAX_OFFSET
      requires view.File? ==>
        ((Shows(view, w) && stream == w.Stream() && MayStart(w))
         || (bootstrapped && Candidate(view, readCursor).Some? && Candidate(view, readCursor) != pending))
      modifies this, store
      ensures Valid() && Inv(w, parses, Snap())
      ensures old(bootstrapped) && generation != old(generation) ==>
        old(pending).Some? && old(pending) == Candidate(view, old(readCursor)) && generation == old(generation) + 1
      ensures ok && view.File? && old(FirstSight(view)) ==>
        bootstrapped && readCursor == old(GoesBy(view)) && generation == old(GenerationBy())
        && pending == Candidate(view, readCursor)
      ensures ok && view.File? && !old(FirstSight(view)) ==>
        CaughtUp(w) && generation == old(GenerationBy()) + if Candidate(view, old(GoesBy(view))).Some? then 1 else 0
      ensures ok && old(bootstrapped) && old(readCursor).Some? && generation == old(generation) ==> base == old(base)
      ensures ok && bootstrapped ==> !ShouldFlush(due)
      ensures old(store.writesLeft).None? ==> ok && store.writesLeft.None?
    {
      hide Inv, Records, BatchesOk, Kept, Numbered, SafeEnd, Increasing, ReadRecords, SizesOk;
      var ready;
      ok, ready := Bootstrap(w, view, stream);
      if !ok || !ready { return; }
      var result := ReadNewLines(view, readCursor);
      if !result.existed {
        if ShouldFlush(due) { ok := Flush(w); }
        return;
      }
      var candidate := if result.rotated then Some(RotatedTo(result.cursor.value.identity.value))
                       else if result.truncated then Some(Shrunk) else None;
      assert candidate == Candidate(view, readCursor);
      if candidate.Some? && candidate != pending {
        pending := candidate;
        if ShouldFlush(due) { ok := Flush(w); }
        return;
      }
      ok := Accept(w, view, stream, result, due);
    }

    /** Acts on a read that shows the file as it is: an ordinary one, or the second sighting of a discontinuity. */
    method Accept(ghost w: World, view: View, stream: nat, result: TailResult, due: bool) returns (ok: bool)
      requires Valid() && bootstrapped && Inv(w, parses, Snap()) && |w.data| <= MAX_OFFSET
      requires view.File? && Shows(view, w) && stream == w.Stream()
      requires var candidate := Candidate(view, readCursor);
        && result.rotated == (candidate.Some? && candidate.value.RotatedTo?)
        && result.truncated == (candidate == Some(Shrunk))
      requires StartAt(view, readCursor) <= |w.data| ==>
        && result.lines == Numbered(w.data, StartAt(view, readCursor))
        && result.cursor == Some(Cursor(Some(w.identity), SafeEnd(w.data, StartAt(view, readCursor))))
      modifies this, store
      ensures Valid() && Inv(w, parses, Snap()) && pending.None?
      ensures generation == old(generation) || (Candidate(view, old(readCursor)).Some? && generation == old(generation) + 1)
      ensures ok ==> generation == old(generation) + if Candidate(view, old(readCursor)).Some? then 1 else 0
      ensures ok ==> CaughtUp(w) && !ShouldFlush(due)
      ensures ok && old(readCursor).Some? && generation == old(generation) ==> base == old(base)
      ensures old(store.writesLeft).None? ==> ok && store.writesLeft.None?
    {
      hide Inv, Records, BatchesOk, Kept, Numbered, SafeEnd, Increasing, ReadRecords, SizesOk;
      var candidate := Candidate(view, readCursor);
      var from := 0;
      if candidate.Some? {
        pending := None;
        ok := Flush(w);
        if !ok { return; }
        FreshKeeps(w, parses, Snap(), generation + 1);
        generation := AdvanceGeneration(Some(generation), result.rotated, result.truncated);
      } else {
        pending := None;
        if readCursor.None? {
          FreshKeeps(w, parses, Snap(), 0);
        } else {
          from := base;
          CursorIsNamed(w, parses, Snap());
          ContinueKeeps(w, parses, Snap());
        }
      }
      assert buffer == [] ==> buffer + ReadRecords(w, StartAt(view, readCursor), generation, parses)
                              == ReadRecords(w, StartAt(view, readCursor), generation, parses);
      ok := Absorb(w, StartAt(view, readCursor), stream, from, result, due);
    }

    /** Takes a read's records and cursor into memory, saves the cursor if nothing is waiting to be spooled, and
        flushes if it is time. */
    method Absorb(ghost w: World, start: nat, stream: nat, from: nat, result: TailResult, due: bool) returns (ok: bool)
      requires start <= |w.data| <= MAX_OFFSET && stream == w.Stream()
      requires result.lines == Numbered(w.data, start) && result.cursor == Some(Cursor(Some(w.identity), SafeEnd(w.data, start)))
      requires batchMax > 0 && BatchesOk(store.spool) && SizesOk(store.spool, batchMax) && bootstrapped && StateIs(mode, store.state) && BaseIs(mode, generation, from)
      requires Increasing(buffer) && forall r :: r in buffer ==> r.generation == generation && r.offset < start
      requires bufferGeneration == if buffer == [] then None else Some(generation)
      requires Inv(w, parses, Snapshot(store.state, Records(store.spool),
        Some(Live(Some(AfterRead(w, start, generation, from)), buffer + ReadRecords(w, start, generation, parses)))))
      modifies this, store
      ensures Valid() && Inv(w, parses, Snap()) && generation == old(generation) && pending == old(pending)
      ensures ok ==> AtEnd(w) && base == from && (buffer == [] ==> store.state == At()) && !ShouldFlush(due)
      ensures old(store.writesLeft).None? ==> ok && store.writesLeft.None?
    {
      hide Inv, Records, BatchesOk, Kept, Numbered, NoLineEnds, BaseIs, SizesOk, SafeEnd, Increasing;
      ok := true;
      NoLineAfterEnd(w.data, start);
      var records := RecordsOf(result.lines, generation, stream, parses);
      BufferGrows(w, start, generation, parses, buffer);
      if records != [] && bufferGeneration.None? { bufferGeneration := Some(generation); }
      buffer := buffer + records;
      bufferEnd := Some(result.cursor.value.offset);
      pendingCursor, readCursor := result.cursor, result.cursor;
      this.stream, base := stream, from;
      if buffer == [] {
        PersistKeeps(w, parses, Snap());
        ok := PersistState();
        if !ok { return; }
      }
      if ShouldFlush(due) { ok := Flush(w); }
    }
  }

  lemma {:induction false} NoLineAfterEnd(data: Bytes, i: nat)
    requires i <= |data|
    ensures NoLineEnds(data, SafeEnd(data, i))
    decreases |data| - i
  {
    match PastNewline(data, i)
    case None =>
    case Some(e) => NoLineAfterEnd(data, e);
  }

  /** A read's records continue the buffer. */
  lemma BufferGrows(w: World, start: nat, generation: nat, parses: Bytes -> bool, buffer: seq<Captured>)
    requires start <= |w.data|
    requires Increasing(buffer) && forall r :: r in buffer ==> r.generation == generation && r.offset < start
    ensures
      var all := buffer + ReadRecords(w, start, generation, parses);
      Increasing(all) && forall r :: r in all ==> r.generation == generation && r.offset < SafeEnd(w.data, start)
  {
    hide Kept, Numbered, SafeEnd, Physical;
    ReadFacts(w, start, generation, parses);
    var records := ReadRecords(w, start, generation, parses);
    var all := buffer + records;
    assert start <= SafeEnd(w.data, start);
    forall j, k | 0 <= j < k < |all| ensures all[j].offset < all[k].offset {
      if j < |buffer| { assert all[j] in buffer; }
      if k >= |buffer| { assert all[k] in records; }
      if j >= |buffer| { assert records[j - |buffer|].offset < records[k - |buffer|].offset; }
    }
    forall r | r in all ensures r.generation == generation && r.offset < SafeEnd(w.data, start) {
      if r !in buffer {
        var k :| 0 <= k < |records| && records[k] == r;
        assert records[k].generation == AfterRead(w, start, generation, 0).generation;
      }
    }
  }

  /** The parsed records of a read, each tagged with its generation and offset. */
  method RecordsOf(lines: seq<(nat, Bytes)>, generation: nat, stream: nat, parses: Bytes -> bool) returns (records: seq<Captured>)
    ensures records == Kept(lines, generation, stream, parses)
  {
    records := [];
    for i := 0 to |lines|
      invariant records == Kept(lines[..i], generation, stream, parses)
    {
      assert lines[..i + 1][..i] == lines[..i];
      if parses(lines[i].1) { records := records + [Captured(generation, lines[i].0, stream, lines[i].1)]; }
    }
    assert lines[..|lines|] == lines;
  }

  predicate Shows(view: View, w: World)
    requires view.File?
  {
    view.identity == w.identity && view.before == |w.data| && view.data == w.data
  }

  lemma ProcessMayDie(w: World, parses: Bytes -> bool, s: Snapshot)
    requires Inv(w, parses, s)
    ensures Inv(w, parses, Snapshot(s.disk, s.spooled, None))
  {
  }

  lemma CursorIsNamed(w: World, parses: Bytes -> bool, s: Snapshot)
    requires Inv(w, parses, s) && s.live.Some? && s.live.value.at.Some?
    ensures s.live.value.at.value.cursor.identity.Some?
  {
  }

  lemma NoneIncreasing()
    ensures Increasing([])
  {
  }

  lemma OneMoreBatch(spool: seq<SpoolBatch>, b: SpoolBatch)
    ensures Records(spool + [b]) == Records(spool) + b.records
  {
    assert (spool + [b])[..|spool|] == spool;
  }

  lemma ChunkFacts(buffer: seq<Captured>, i: nat, next: nat, end: nat, generation: nat)
    requires i < next <= |buffer| && Increasing(buffer) && end <= MAX_OFFSET
    requires if next < |buffer| then end == buffer[next].offset else forall r :: r in buffer ==> r.offset < end
    requires forall r :: r in buffer ==> r.generation == generation
    ensures BatchOk(SpoolBatch(Range(generation, buffer[i].offset, end), buffer[i..next]))
    ensures Refusal(next - i, generation, buffer[i].offset, end).None?
    ensures forall r :: r in buffer[i..next] ==> r in buffer
  {
    var chunk := buffer[i..next];
    forall k | 0 <= k < |chunk| ensures chunk[k].offset >= buffer[i].offset && chunk[k].offset < end {
      assert chunk[k] == buffer[i + k];
    }
    assert Power10(20) - 1 >= MAX_OFFSET by { Widths(); }
  }

  lemma Widths()
    ensures Power10(20) == 100_000_000_000_000_000_000
  {
    assert Power10(5) == 100_000;
    assert Power10(10) == 10_000_000_000;
    assert Power10(15) == 1_000_000_000_000_000;
  }

  // ----- a source over a whole life -----

  datatype Sight = AsItIs(after: nat) | Away | NoAccess | Glitch(view: View)

  /** What happens to the file and the process. A poll has a number of durable writes after which the next one raises.
      The process then lives on with its memory as the failed write left it, as it does when the caller catches the
      exception and polls the same object again, or it dies, and the next poll starts a new one from what is on disk. */
  datatype Action =
    | Append(bytes: Bytes)
    | Break(identity: Token, data: Bytes)
    | Poll(sight: Sight, due: bool, writes: Option<nat>, survives: bool)
    | Shutdown(writes: Option<nat>)
    | Crash

  function ViewOf(w: World, sight: Sight): View {
    match sight
    case AsItIs(after) => File(w.identity, |w.data|, w.data, after)
    case Away => Missing
    case NoAccess => Unreadable(w.identity)
    case Glitch(view) => view
  }

  // ----- when a life has captured everything -----

  /** Every line of the position's stream from its base on that has ended and parses is among the records, the stream is
      the current one, and a replay began at byte 0. */
  ghost predicate AllCaptured(w: World, mode: Mode, records: seq<Captured>, state: Option<Position>, parses: Bytes -> bool) {
    && state.Some? && state.value.stream == w.Stream() && state.value.cursor.identity == Some(w.identity)
    && BaseIs(mode, state.value.generation, state.value.base)
    && forall off: nat, end: nat :: LineAt(w.data, state.value.base, off, end) && parses(w.data[off..end]) ==>
         Has(records, state.value.generation, off)
  }

  lemma HoldsAll(w: World, mode: Mode, parses: Bytes -> bool, s: Snapshot)
    requires Inv(w, parses, s) && s.disk.Some? && BaseIs(mode, s.disk.value.generation, s.disk.value.base)
    requires s.disk.value.stream == w.Stream() && s.disk.value.cursor.identity == Some(w.identity)
    requires NoLineEnds(w.data, s.disk.value.cursor.offset)
    ensures AllCaptured(w, mode, s.spooled, s.disk, parses)
  {
    hide Has, SpoolOk;
    var p := s.disk.value;
    assert Holds(s.spooled, p, w, parses);
    forall off: nat, end: nat | LineAt(w.data, p.base, off, end) && parses(w.data[off..end])
      ensures Has(s.spooled, p.generation, off)
    {
      assert w.data[end - 1] == NEWLINE;
      assert off < p.cursor.offset;
    }
  }

  /** A look at the file as it is, whose writes do not fail. */
  predicate Looks(action: Action) {
    action.Poll? && action.sight.AsItIs? && action.writes.None?
  }

  /** The life ends with two such looks, and the second, or a shutdown after it, spools what is left. One look may
      only note a rotation or truncation; the next one confirms it. */
  predicate EndsWithLooks(actions: seq<Action>) {
    var n := |actions|;
    (n >= 2 && Looks(actions[n - 2]) && Looks(actions[n - 1]) && actions[n - 1].due)
    || (n >= 3 && Looks(actions[n - 3]) && Looks(actions[n - 2]) && actions[n - 1] == Shutdown(None))
  }

  predicate StartFits(mode: Mode, w: World) {
    mode.Offset? ==> mode.at <= |w.data|
  }

  /** One action. A look leaves the collector caught up, or with the discontinuity noted that the next one confirms. */
  method Act(w: World, c: SourceCollector, action: Action) returns (after: World, alive: bool)
    requires c.Valid() && Inv(w, c.parses, c.Snap()) && |w.data| <= MAX_OFFSET
    modifies c, c.store
    ensures c.Valid() && Inv(after, c.parses, c.Snap()) && |after.data| <= MAX_OFFSET
    ensures Looks(action) || action == Shutdown(None) ==> after == w
    ensures Looks(action) && StartFits(c.mode, w) ==> alive && (c.CaughtUp(w) || c.Noted(w)) && (action.due ==> c.buffer == [])
    ensures Looks(action) && StartFits(c.mode, w) && old(c.CaughtUp(w) || c.Noted(w)) ==> c.CaughtUp(w)
    ensures action == Shutdown(None) && old(c.CaughtUp(w)) ==> c.CaughtUp(w) && c.buffer == []
  {
    hide Inv, MayAppend, MayBreak, BatchesOk, Increasing, Records, NoLineEnds, BaseIs, SizesOk;
    after, alive := w, true;
    match action {
      case Append(bytes) =>
        if MayAppend(w, c.Snap(), bytes) && |w.data + bytes| <= MAX_OFFSET {
          AppendKeeps(w, c.parses, c.Snap(), bytes);
          after := w.(data := w.data + bytes);
        }
      case Break(identity, data) =>
        if MayBreak(w, c.Snap(), identity, data) && |data| <= MAX_OFFSET {
          BreakKeeps(w, c.parses, c.Snap(), identity, data);
          after := World(identity, w.earlier + [w.data], data);
        }
      case Poll(sight, due, writes, survives) =>
        var view := ViewOf(w, sight);
        var first := c.bootstrapped && Candidate(view, c.readCursor).Some? && Candidate(view, c.readCursor) != c.pending;
        if if sight.Glitch? then first else c.MayStart(w) {
          c.store.writesLeft := writes;
          var ok := c.PollOnce(w, view, w.Stream(), due);
          alive := ok || survives;
        }
      case Shutdown(writes) =>
        c.store.writesLeft := writes;
        var ok := c.Flush(w);
        alive := false;
      case Crash =>
        alive := false;
    }
  }

  /** The whole life of a source: appends, rotations and truncations as far as `MayAppend` and `MayBreak` let them
      happen, polls with glitches, failures of any durable write that the process survives or not, crashes.
      Generations number the streams in order, every spooled record is a line of its stream, every batch's name
      tells its content, and everything that parses before the saved cursor is in the spool. Whatever happened
      before, after two looks at the file every line that parses is spooled. */
  method Live(start: World, actions: seq<Action>, mode: Mode, batchMax: nat, parses: Bytes -> bool)
    returns (w: World, state: Option<Position>, spool: seq<SpoolBatch>)
    requires batchMax > 0 && |start.data| <= MAX_OFFSET
    ensures BatchesOk(spool) && SizesOk(spool, batchMax)
    ensures forall a, b :: a in Records(spool) && b in Records(spool) ==> InOrder(a, b)
    ensures forall a :: a in Records(spool) ==> Physical(w, a)
    ensures state.Some? ==> Holds(Records(spool), state.value, w, parses)
    ensures EndsWithLooks(actions) && StartFits(mode, w) ==> AllCaptured(w, mode, Records(spool), state, parses)
  {
    hide Inv, BatchOk, InOrder, Physical, Holds, Records, AllCaptured, NoLineEnds, BaseIs, Increasing, SizesOk;
    w := start;
    var store := new Store();
    var c := new SourceCollector(store, mode, batchMax, parses);
    NothingYet(w, parses);
    EmptySpool();
    for n := 0 to |actions|
      invariant c.store == store && c.batchMax == batchMax && c.parses == parses && c.mode == mode && fresh(store) && fresh(c)
      invariant c.Valid() && Inv(w, parses, c.Snap()) && |w.data| <= MAX_OFFSET
      invariant n >= 1 && Looks(actions[n - 1]) && StartFits(mode, w) ==>
        (c.CaughtUp(w) || c.Noted(w)) && (actions[n - 1].due ==> c.buffer == [])
      invariant n >= 2 && Looks(actions[n - 2]) && Looks(actions[n - 1]) && StartFits(mode, w) ==> c.CaughtUp(w)
      invariant EndsWithLooks(actions[..n]) && StartFits(mode, w) ==> AllCaptured(w, mode, Records(store.spool), store.state, parses)
    {
      var alive;
      w, alive := Act(w, c, actions[n]);
      if EndsWithLooks(actions[..n + 1]) && StartFits(mode, w) { HoldsAll(w, mode, parses, c.Snap()); }
      if !alive {
        ProcessMayDie(w, parses, c.Snap());
        c := new SourceCollector(store, mode, batchMax, parses);
      }
    }
    assert actions[..|actions|] == actions;
    state, spool := store.state, store.spool;
    SnapshotFacts(w, parses, c.Snap());
  }

  lemma EmptySpool()
    ensures Records([]) == [] && BatchesOk([]) && forall max :: SizesOk([], max)
  {
  }

  lemma SnapshotFacts(w: World, parses: Bytes -> bool, s: Snapshot)
    requires Inv(w, parses, s)
    ensures forall a, b :: a in s.spooled && b in s.spooled ==> InOrder(a, b)
    ensures forall a :: a in s.spooled ==> Physical(w, a)
    ensures s.disk.Some? ==> Holds(s.spooled, s.disk.value, w, parses)
  {
  }

  // ----- what the order of generations gives -----

  lemma {:induction false} InSpool(spool: seq<SpoolBatch>, b: SpoolBatch, r: Captured)
    requires b in spool && r in b.records
    ensures r in Records(spool)
  {
    var n := |spool| - 1;
    if spool[n] != b { InSpool(spool[..n], b, r); }
  }

  /** Listing order is capture order: of two batches, the one whose file name sorts first was captured from an
      earlier stream, or from the same stream at no later an offset. */
  lemma ListingIsCaptureOrder(spool: seq<SpoolBatch>, a: SpoolBatch, s: Tie, b: SpoolBatch, t: Tie)
    requires BatchesOk(spool) && a in spool && b in spool
    requires forall x, y :: x in Records(spool) && y in Records(spool) ==> InOrder(x, y)
    requires a.range.generation < 1_000_000 && b.range.generation < 1_000_000
    requires Less(FileName(a.range, s), FileName(b.range, t))
    ensures var x, y := a.records[0], b.records[0];
      x.stream < y.stream || (x.stream == y.stream && (x.offset < y.offset || (x.offset == y.offset && a.range.end <= b.range.end)))
  {
    hide FileName, Less, Power10, Records;
    InSpool(spool, a, a.records[0]);
    InSpool(spool, b, b.records[0]);
    Million();
    Widths();
    NamesSortByRange(a.range, s, b.range, t);
    assert InOrder(a.records[0], b.records[0]) && InOrder(b.records[0], a.records[0]);
  }

  function EventOf(agent: string, source: string, r: Captured): Identity.SourceEvent {
    Identity.SourceEvent(agent, source, r.generation, r.offset)
  }

  /** Of captured records whose generations number the streams, two have one identity string exactly if they are the
      same place of the same stream; a record read again, after a restart too, keeps its identity. */
  lemma IdentityIsPhysical(w: World, agent: string, source: string, a: Captured, b: Captured)
    requires Physical(w, a) && Physical(w, b) && InOrder(a, b) && InOrder(b, a)
    requires Identity.Accepted(EventOf(agent, source, a))
    ensures Identity.IdentityString(EventOf(agent, source, a)) == Identity.IdentityString(EventOf(agent, source, b))
            <==> a.stream == b.stream && a.offset == b.offset
    ensures a.stream == b.stream && a.offset == b.offset ==> a == b
  {
    hide Identity.IdentityString;
    Identity.IdentityStringDetermines(EventOf(agent, source, a), EventOf(agent, source, b));
  }

  /** Why a break must wait for the saved generation: after one, a process restarted from disk numbers the new stream
      with the next generation. Its records keep the order of generations if and only if no spooled record is above
      the saved generation (or the read finds no record). */
  lemma UnsavedGenerationIsReused(w: World, parses: Bytes -> bool, s: Snapshot, identity: Token, data: Bytes)
    requires Inv(w, parses, s) && s.disk.Some?
    ensures var w' := World(identity, w.earlier + [w.data], data);
      var d, read := s.disk.value, ReadRecords(w', 0, s.disk.value.generation + 1, parses);
      (forall a, b :: a in s.spooled + read && b in s.spooled + read ==> InOrder(a, b))
      <==> (read == [] || forall a :: a in s.spooled ==> a.generation <= d.generation)
  {
    hide Physical, Holds, LiveOk, Kept, Numbered;
    var w' := World(identity, w.earlier + [w.data], data);
    var d, read := s.disk.value, ReadRecords(w', 0, s.disk.value.generation + 1, parses);
    ReadFacts(w', 0, d.generation + 1, parses);
    assert forall a :: a in s.spooled ==> Behind(w, s.disk, a);
    if read != [] {
      forall a | a in s.spooled && a.generation > d.generation ensures !InOrder(a, read[0]) {}
      if a: Captured :| a in s.spooled && a.generation > d.generation {
        assert a in s.spooled + read && read[0] in s.spooled + read;
      }
    }
    forall a, b | a in s.spooled + read && b in s.spooled + read && (read == [] || forall r :: r in s.spooled ==> r.generation <= d.generation)
      ensures InOrder(a, b)
    {
    }
  }

  // ----- a configured start beyond the end of the file -----

  /** Why a configured start must lie in the file: beyond its end a process reads from byte 0 under generation 1, and
      one that starts with nothing saved after the file has grown reads from that byte on under generation 0. As soon
      as both have a record, generations do not number the streams in order. */
  lemma StartBeyondEnd(w: World, bytes: Bytes, at: nat, parses: Bytes -> bool)
    requires |w.data| < at <= |w.data + bytes|
    ensures
      var grown := w.(data := w.data + bytes);
      var first, second := ReadRecords(w, 0, 1, parses), ReadRecords(grown, at, 0, parses);
      Visible(StartingAt(w, at), w) && !Visible(StartingAt(w, at), grown)
      && ((forall a, b :: a in first && b in second ==> InOrder(a, b) && InOrder(b, a)) <==> first == [] || second == [])
  {
    hide Kept, Numbered, SafeEnd;
    var grown := w.(data := w.data + bytes);
    ReadFacts(w, 0, 1, parses);
    ReadFacts(grown, at, 0, parses);
    var first, second := ReadRecords(w, 0, 1, parses), ReadRecords(grown, at, 0, parses);
    if first != [] && second != [] {
      assert first[0] in first && second[0] in second && !InOrder(second[0], first[0]);
    }
  }

  // ----- an identity that two physical records share -----

  const FIRST: Bytes := [120, NEWLINE]
  const SECOND: Bytes := [121, NEWLINE]

  function AnyLine(line: Bytes): bool { true }

  /** A source seeded at the end of an empty file, which was then replaced: the new file's one line is spooled under
      generation 1, and the process died before it saved that generation. */
  function Unsaved(a: Token, b: Token): (World, Snapshot) {
    (World(b, [[]], FIRST), Snapshot(Some(Position(Cursor(Some(a), 0), 0, 0, 0)), [Captured(1, 0, 1, FIRST)], None))
  }

  lemma OneLine(data: Bytes, generation: nat, stream: nat)
    requires |data| == 2 && data[0] != NEWLINE && data[1] == NEWLINE
    ensures PastNewline(data, 0) == Some(2)
    ensures Numbered(data, 0) == [(0, data)]
    ensures Kept(Numbered(data, 0), generation, stream, AnyLine) == [Captured(generation, 0, stream, data)]
  {
    PastNewlineIs(data, 0, 2);
    assert Numbered(data, 2) == [] && data[0..2] == data;
    assert Numbered(data, 0) == [(0, data)];
    assert [(0, data)][..0] == [];
    assert Kept([], generation, stream, AnyLine) == [];
  }

  /** The file is then replaced once more. The restarted process gives the third stream generation 1 again, and its
      first record the identity of a different record that is already spooled. */
  lemma UnsavedGenerationCollides(agent: string, source: string, a: Token, b: Token, c: Token)
    requires a != b && a != c
    ensures
      var (w, s) := Unsaved(a, b);
      var w' := World(c, w.earlier + [w.data], SECOND);
      var read := ReadRecords(w', 0, s.disk.value.generation + 1, AnyLine);
      Inv(w, AnyLine, s) && !Settled(s) && Visible(s.disk.value, w') && read != []
      && s.spooled[0].stream != read[0].stream && s.spooled[0].text != read[0].text
      && Identity.IdentityString(EventOf(agent, source, s.spooled[0])) == Identity.IdentityString(EventOf(agent, source, read[0]))
  {
    var (w, s) := Unsaved(a, b);
    OneLine(FIRST, 1, 1);
    OneLine(SECOND, 1, 2);
    assert Physical(w, s.spooled[0]) by { assert FIRST[0..2] == FIRST; }
    assert Visible(s.disk.value, w);
  }
}
