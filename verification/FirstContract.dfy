/** The v1 run: read every source, upload everything, commit all or nothing (collector/run.py, collector/uploader.py,
    collector/reader.py), over logs that grow, rotate and are truncated. The server stores a set of records: it drops
    what it has. */
module FirstContract {
  import opened Text
  import opened Reading

  // Check-ins, rejects and ACS records, in that order.
  const SOURCES := 3

  /** One list of records per source. */
  type Lists<R> = seq<seq<R>>

  type Stored<R> = seq<set<R>>

  function Longest<R>(lists: Lists<R>): (n: nat)
    ensures forall s :: 0 <= s < |lists| ==> |lists[s]| <= n
    ensures n > 0 ==> exists s :: 0 <= s < |lists| && |lists[s]| == n
  {
    if lists == [] then 0
    else
      var rest := Longest(lists[..|lists| - 1]);
      assert lists == lists[..|lists| - 1] + [lists[|lists| - 1]];
      if rest > |lists[|lists| - 1]| then rest else |lists[|lists| - 1]|
  }

  /** Python's slice: bounds past the end are cut. */
  function Slice<T>(items: seq<T>, from: nat, upto: nat): seq<T>
    requires from <= upto
  {
    if upto <= |items| then items[from..upto] else if from <= |items| then items[from..] else []
  }

  function SlicesOf<R>(lists: Lists<R>, from: nat, upto: nat): (batch: Lists<R>)
    requires from <= upto
    ensures |batch| == |lists|
  {
    seq(|lists|, s requires 0 <= s < |lists| => Slice(lists[s], from, upto))
  }

  function Joined<R>(batches: seq<Lists<R>>, s: nat): seq<R>
    requires forall k :: 0 <= k < |batches| ==> s < |batches[k]|
  {
    if batches == [] then [] else Joined(batches[..|batches| - 1], s) + batches[|batches| - 1][s]
  }

  predicate Shaped<R>(batches: seq<Lists<R>>, n: nat) {
    forall k :: 0 <= k < |batches| ==> |batches[k]| == n
  }

  predicate HasRecords<R>(batch: Lists<R>) {
    exists s :: 0 <= s < |batch| && batch[s] != []
  }

  /** The batches put back together are each source's list, none has more than the cap of any source, and none is
      empty. */
  method BuildBatches<R>(lists: Lists<R>, cap: nat) returns (batches: seq<Lists<R>>)
    requires cap > 0
    ensures Shaped(batches, |lists|)
    ensures forall s :: 0 <= s < |lists| ==> Joined(batches, s) == lists[s]
    ensures forall k, s :: 0 <= k < |batches| && 0 <= s < |lists| ==> |batches[k][s]| <= cap
    ensures forall k :: 0 <= k < |batches| ==> HasRecords(batches[k])
  {
    hide Longest, HasRecords, Joined, Slice;
    forall s | 0 <= s < |lists| ensures Joined([], s) == Slice(lists[s], 0, 0) { NoneJoined(lists[s], s); }
    var total := Longest(lists);
    batches := [];
    var start: nat := 0;
    while start < total
      invariant Shaped(batches, |lists|)
      invariant forall s :: 0 <= s < |lists| ==> Joined(batches, s) == Slice(lists[s], 0, start)
      invariant forall k, s :: 0 <= k < |batches| && 0 <= s < |lists| ==> |batches[k][s]| <= cap
      invariant forall k :: 0 <= k < |batches| ==> HasRecords(batches[k])
      decreases total - start
    {
      var batch := SlicesOf(lists, start, start + cap);
      assert HasRecords(batch) by { SomeRecords(lists, start, start + cap); }
      forall s | 0 <= s < |lists| ensures Joined(batches + [batch], s) == Slice(lists[s], 0, start + cap) {
        OneMoreJoined(batches, batch, s, lists[s], start, start + cap);
      }
      forall s | 0 <= s < |lists| ensures |batch[s]| <= cap { SliceSize(lists[s], start, start + cap); }
      batches := batches + [batch];
      start := start + cap;
    }
    forall s | 0 <= s < |lists| ensures Slice(lists[s], 0, start) == lists[s] { SliceSize(lists[s], 0, start); }
  }

  lemma NoneJoined<R>(list: seq<R>, s: nat)
    ensures Joined([], s) == Slice(list, 0, 0)
  {
  }

  lemma OneMoreJoined<R>(batches: seq<Lists<R>>, batch: Lists<R>, s: nat, list: seq<R>, start: nat, end: nat)
    requires s < |batch| && start <= end && forall k :: 0 <= k < |batches| ==> s < |batches[k]|
    requires Joined(batches, s) == Slice(list, 0, start) && batch[s] == Slice(list, start, end)
    ensures Joined(batches + [batch], s) == Slice(list, 0, end)
  {
    assert (batches + [batch])[..|batches|] == batches;
    assert Slice(list, 0, start) + Slice(list, start, end) == Slice(list, 0, end);
  }

  lemma SliceSize<T>(items: seq<T>, from: nat, upto: nat)
    requires from <= upto
    ensures |Slice(items, from, upto)| <= upto - from
    ensures from == 0 && upto >= |items| ==> Slice(items, from, upto) == items
  {
  }

  lemma SomeRecords<R>(lists: Lists<R>, start: nat, end: nat)
    requires start < Longest(lists) && start < end
    ensures HasRecords(SlicesOf(lists, start, end))
  {
    hide Longest;
    var fullest :| 0 <= fullest < |lists| && |lists[fullest]| == Longest(lists);
    assert SlicesOf(lists, start, end)[fullest] != [];
  }

  // ----- uploading -----

  /** A batch's answer. A failed one may have been stored all the same, or not: the answer can get lost. */
  datatype Answer = Delivered | Failed(stored: bool)

  ghost predicate AllDelivered(answers: nat -> Answer) {
    forall k: nat :: answers(k) == Delivered
  }

  function AsSet<R>(items: seq<R>): set<R> {
    set x | x in items
  }

  function Store<R>(stored: Stored<R>, batch: Lists<R>): (after: Stored<R>)
    requires |stored| == |batch|
    ensures |after| == |stored|
  {
    seq(|stored|, s requires 0 <= s < |stored| => stored[s] + AsSet(batch[s]))
  }

  /** Stops at the first failed batch. What the server holds afterwards is what it held and some of what was to be
      uploaded; on success, all of it. */
  method UploadRecords<R>(lists: Lists<R>, cap: nat, answers: nat -> Answer, server: Stored<R>)
    returns (success: bool, after: Stored<R>, ghost requests: nat)
    requires cap > 0 && |server| == |lists|
    ensures |after| == |server|
    ensures forall s :: 0 <= s < |lists| ==> server[s] <= after[s] <= server[s] + AsSet(lists[s])
    ensures success ==> forall s :: 0 <= s < |lists| ==> after[s] == server[s] + AsSet(lists[s])
    ensures AllDelivered(answers) ==> success
    ensures forall k :: 0 <= k < requests && (success || k < requests - 1) ==> answers(k) == Delivered
    ensures !success ==> requests > 0 && answers(requests - 1) != Delivered
  {
    requests := 0;
    var batches := BuildBatches(lists, cap);
    after := server;
    for k := 0 to |batches|
      invariant |after| == |server|
      invariant forall s :: 0 <= s < |lists| ==> after[s] == server[s] + AsSet(Joined(batches[..k], s))
      invariant requests == k && forall j :: 0 <= j < k ==> answers(j) == Delivered
    {
      requests := k + 1;
      forall s | 0 <= s < |lists|
        ensures Joined(batches[..k + 1], s) == Joined(batches[..k], s) + batches[k][s]
        ensures AsSet(Joined(batches[..k + 1], s)) <= AsSet(lists[s])
      {
        assert batches[..k + 1][..k] == batches[..k];
        PartOf(batches, k + 1, s);
      }
      match answers(k) {
        case Failed(stored) =>
          if stored { after := Store(after, batches[k]); }
          return false, after, requests;
        case Delivered =>
          after := Store(after, batches[k]);
      }
    }
    assert batches[..|batches|] == batches;
    return true, after, requests;
  }

  lemma {:induction false} PartOf<R>(batches: seq<Lists<R>>, k: nat, s: nat)
    requires k <= |batches| && forall j :: 0 <= j < |batches| ==> s < |batches[j]|
    ensures AsSet(Joined(batches[..k], s)) <= AsSet(Joined(batches, s))
    decreases |batches|
  {
    if k == |batches| {
      assert batches[..k] == batches;
    } else {
      var init := batches[..|batches| - 1];
      PartOf(init, k, s);
      assert init[..k] == batches[..k];
    }
  }

  // ----- the run -----

  /** One source's log: the file and its identity, what the path held before, and the committed cursor. */
  datatype Log = Log(identity: Token, data: Bytes, earlier: seq<Bytes>, cursor: Option<Cursor>)

  /** The records of the lines, in order; a parser gives each line its records. */
  function Parsed<R>(parse: Bytes -> seq<R>, lines: seq<Bytes>): seq<R> {
    if lines == [] then [] else parse(lines[0]) + Parsed(parse, lines[1..])
  }

  lemma {:induction false} ParsedConcat<R>(parse: Bytes -> seq<R>, a: seq<Bytes>, b: seq<Bytes>)
    ensures Parsed(parse, a + b) == Parsed(parse, a) + Parsed(parse, b)
  {
    if a == [] {
      assert a + b == b;
    } else {
      ParsedConcat(parse, a[1..], b);
      assert (a + b)[1..] == a[1..] + b && (a + b)[0] == a[0];
      assert Parsed(parse, a + b) == parse(a[0]) + (Parsed(parse, a[1..]) + Parsed(parse, b));
      assert Parsed(parse, a) == parse(a[0]) + Parsed(parse, a[1..]);
    }
  }

  /** Where the next read starts: at the committed offset, or at 0 after a rotation or truncation. */
  function Start(log: Log, windows: bool): nat {
    StartOf(log.cursor, log.identity, |log.data|, windows)
  }

  /** That is 0 or just past a newline. */
  predicate AtLine(log: Log, windows: bool) {
    Start(log, windows) <= |log.data| && (Start(log, windows) == 0 || log.data[Start(log, windows) - 1] == NEWLINE)
  }

  /** The records before the next read's start, and those of all complete lines. */
  function Committed<R>(parse: Bytes -> seq<R>, log: Log, windows: bool): seq<R>
    requires AtLine(log, windows)
  {
    Parsed(parse, CompleteLines(log.data[..Start(log, windows)]))
  }

  function Everything<R>(parse: Bytes -> seq<R>, log: Log): seq<R> {
    Parsed(parse, CompleteLines(log.data))
  }

  /** The records of all complete lines the path ever held. */
  function Ever<R>(parse: Bytes -> seq<R>, earlier: seq<Bytes>): set<R> {
    if earlier == [] then {}
    else Ever(parse, earlier[..|earlier| - 1]) + AsSet(Parsed(parse, CompleteLines(earlier[|earlier| - 1])))
  }

  function AllEver<R>(parse: Bytes -> seq<R>, log: Log): set<R> {
    Ever(parse, log.earlier) + AsSet(Everything(parse, log))
  }

  lemma {:induction false} LinesAround(data: Bytes, i: nat, offset: nat)
    requires i <= offset <= |data| && (offset == i || data[offset - 1] == NEWLINE)
    ensures Lines(data, i) == Lines(data[..offset], i) + Lines(data, offset)
    decreases |data| - i
  {
    var cut := data[..offset];
    if offset > i {
      var e := PastNewline(data, i).value;
      assert e <= offset by { assert data[offset - 1] == NEWLINE; }
      PastNewlineIs(cut, i, e);
      assert cut[i..e] == data[i..e];
      LinesAround(data, e, offset);
    }
  }

  lemma EverythingIsCommittedAndNew<R>(parse: Bytes -> seq<R>, log: Log, windows: bool)
    requires AtLine(log, windows)
    ensures Everything(parse, log) == Committed(parse, log, windows) + Parsed(parse, Lines(log.data, Start(log, windows)))
  {
    hide StartOf;
    var start := Start(log, windows);
    LinesAround(log.data, 0, start);
    ParsedConcat(parse, CompleteLines(log.data[..start]), Lines(log.data, start));
  }

  ghost predicate Held<R>(parse: Bytes -> seq<R>, log: Log, windows: bool, stored: set<R>) {
    AtLine(log, windows) && AsSet(Committed(parse, log, windows)) <= stored <= AllEver(parse, log)
  }

  /** The server holds at least the records before each read's start and never more than those of the complete lines. */
  ghost predicate Bounded<R>(parse: seq<Bytes -> seq<R>>, logs: seq<Log>, windows: bool, server: Stored<R>) {
    && |parse| == |logs| == |server| == SOURCES
    && forall s :: 0 <= s < SOURCES ==> Held(parse[s], logs[s], windows, server[s])
  }

  /** One run. `away` are the sources not found or not readable. Success adds exactly the records of every line of the
      sources read to what the server held; a failed run commits nothing. Rotations and truncations are reported. */
  method RunOnce<R>(parse: seq<Bytes -> seq<R>>, logs: seq<Log>, away: set<nat>, cap: nat, answers: nat -> Answer,
                    windows: bool, server: Stored<R>)
    returns (exitCode: int, committed: seq<Log>, after: Stored<R>, rotated: set<nat>, truncated: set<nat>, ghost requests: nat)
    requires cap > 0 && Bounded(parse, logs, windows, server)
    ensures Bounded(parse, committed, windows, after)
    ensures forall s :: 0 <= s < SOURCES ==> SameFiles(committed[s], logs[s]) && server[s] <= after[s]
    ensures exitCode != 0 ==> committed == logs
    ensures AllDelivered(answers) ==> exitCode == 0
    ensures exitCode == 0 || (exitCode == 1 && requests > 0 && answers(requests - 1) != Delivered)
    ensures forall k :: 0 <= k < requests && (exitCode == 0 || k < requests - 1) ==> answers(k) == Delivered
    ensures exitCode == 0 ==> forall s :: 0 <= s < SOURCES && s !in away ==>
      after[s] == server[s] + AsSet(Everything(parse[s], logs[s])) && Caught(committed[s], windows)
    ensures exitCode == 0 ==> forall s :: 0 <= s < SOURCES && s in away ==> committed[s] == logs[s] && after[s] == server[s]
    ensures forall s :: s in rotated <==> 0 <= s < SOURCES && s !in away && Rotated(logs[s].cursor, logs[s].identity, windows)
    ensures forall s :: s in truncated <==>
      0 <= s < SOURCES && s !in away && Truncated(logs[s].cursor, logs[s].identity, |logs[s].data|, windows)
  {
    hide Lines, Flat, AsSet, Everything, Committed, AllEver, Caught, StartOf, SameFile;
    var records: Lists<R> := [];
    committed, rotated, truncated := [], {}, {};
    for s := 0 to SOURCES
      invariant |records| == |committed| == s
      invariant forall k :: 0 <= k < s ==> Read(parse[k], logs[k], windows, k in away, records[k], committed[k])
      invariant forall k :: k in rotated <==> 0 <= k < s && k !in away && Rotated(logs[k].cursor, logs[k].identity, windows)
      invariant forall k :: k in truncated <==>
        0 <= k < s && k !in away && Truncated(logs[k].cursor, logs[k].identity, |logs[k].data|, windows)
    {
      if s in away {
        records, committed := records + [[]], committed + [logs[s]];
      } else {
        var log := logs[s];
        assert Held(parse[s], log, windows, server[s]);
        var start := Start(log, windows);
        if Rotated(log.cursor, log.identity, windows) { rotated := rotated + {s}; }
        if Truncated(log.cursor, log.identity, |log.data|, windows) { truncated := truncated + {s}; }
        var lines, end := ReadCompleteLines(log.data, start);
        NothingAfter(log.data, start, end);
        var next := log.(cursor := Some(Cursor(Some(log.identity), end)));
        CursorStart(next, end, windows);
        assert Caught(next, windows) by { NothingIsCaught(next, windows); }
        records, committed := records + [Parsed(parse[s], lines)], committed + [next];
      }
    }
    var success;
    success, after, requests := UploadRecords(records, cap, answers, server);
    forall s | 0 <= s < SOURCES
      ensures Held(parse[s], logs[s], windows, after[s])
      ensures success ==> Held(parse[s], committed[s], windows, after[s])
      ensures success && s !in away ==> after[s] == server[s] + AsSet(Everything(parse[s], logs[s]))
      ensures success && s in away ==> after[s] == server[s]
    {
      assert Held(parse[s], logs[s], windows, server[s]);
      Uploaded(parse[s], logs[s], windows, s in away, records[s], committed[s], server[s], after[s]);
    }
    if !success { return 1, logs, after, rotated, truncated, requests; }
    return 0, committed, after, rotated, truncated, requests;
  }

  /** The same files, whatever was committed of them. */
  predicate SameFiles(a: Log, b: Log) {
    a.identity == b.identity && a.data == b.data && a.earlier == b.earlier
  }

  /** Nothing is left to read. */
  predicate Caught(log: Log, windows: bool) {
    Start(log, windows) <= |log.data| && Lines(log.data, Start(log, windows)) == []
  }

  /** What reading a source gives: nothing if it is away, else the new records and a cursor with nothing after it. */
  ghost predicate Read<R>(parse: Bytes -> seq<R>, log: Log, windows: bool, away: bool, records: seq<R>, next: Log) {
    SameFiles(next, log)
    && if away then records == [] && next == log
       else AtLine(log, windows) && AtLine(next, windows) && records == Parsed(parse, Lines(log.data, Start(log, windows)))
            && Caught(next, windows)
  }

  lemma NothingAfter(data: Bytes, start: nat, end: nat)
    requires start <= |data| && end == start + |Flat(Lines(data, start))| <= |data|
    ensures Lines(data, end) == []
  {
    hide Lines, Flat;
    LinesThenRest(data, start);
    NoLines(data, end);
  }

  lemma NothingIsCaught(log: Log, windows: bool)
    requires Start(log, windows) <= |log.data| && Lines(log.data, Start(log, windows)) == []
    ensures Caught(log, windows)
  {
  }

  lemma CursorStart(log: Log, end: nat, windows: bool)
    requires log.cursor == Some(Cursor(Some(log.identity), end)) && end <= |log.data|
    ensures Start(log, windows) == end
  {
  }

  lemma Uploaded<R>(parse: Bytes -> seq<R>, log: Log, windows: bool, away: bool, records: seq<R>, next: Log,
                    server: set<R>, after: set<R>)
    requires Held(parse, log, windows, server) && Read(parse, log, windows, away, records, next)
    requires server <= after <= server + AsSet(records)
    ensures Held(parse, log, windows, after)
    ensures after == server + AsSet(records) ==> Held(parse, next, windows, after)
    ensures after == server + AsSet(records) ==> after == if away then server else server + AsSet(Everything(parse, log))
  {
    hide Lines, Parsed, StartOf;
    EverythingIsCommittedAndNew(parse, log, windows);
    if !away {
      EverythingIsCommittedAndNew(parse, next, windows);
      assert Parsed(parse, []) == [] by { NothingParsed(parse); }
      assert Everything(parse, next) == Committed(parse, next, windows) + [];
      assert Everything(parse, next) == Everything(parse, log);
      assert AllEver(parse, next) == AllEver(parse, log);
      assert AsSet(Everything(parse, log)) == AsSet(Committed(parse, log, windows)) + AsSet(records);
      assert Committed(parse, next, windows) == Everything(parse, log);
      if after == server + AsSet(records) {
        assert AsSet(Committed(parse, next, windows)) <= after;
        assert after <= AllEver(parse, log);
      }
    }
  }

  lemma NothingParsed<R>(parse: Bytes -> seq<R>)
    ensures Parsed(parse, []) == []
  {
  }

  function Grown(log: Log, bytes: Bytes): Log {
    log.(data := log.data + bytes)
  }

  function Replaced(log: Log, identity: Token, data: Bytes): Log {
    Log(identity, data, log.earlier + [log.data], log.cursor)
  }

  /** Appending to a log keeps the bounds if it does not hide a truncation: the records of complete lines only grow. */
  lemma AppendKeepsBounds<R>(parse: seq<Bytes -> seq<R>>, logs: seq<Log>, windows: bool, server: Stored<R>, s: nat, bytes: Bytes)
    requires Bounded(parse, logs, windows, server) && s < SOURCES
    requires Start(Grown(logs[s], bytes), windows) == Start(logs[s], windows)
    ensures Bounded(parse, logs[s := Grown(logs[s], bytes)], windows, server)
  {
    hide Lines, Parsed, StartOf, Ever;
    var log, grown := logs[s], Grown(logs[s], bytes);
    var start := Start(log, windows);
    assert Held(parse[s], log, windows, server[s]);
    assert grown.data[..start] == log.data[..start];
    LinesOfGrown(log.data, bytes, 0);
    var n := |CompleteLines(log.data)|;
    var all := CompleteLines(grown.data);
    assert all == all[..n] + all[n..];
    ParsedConcat(parse[s], all[..n], all[n..]);
    assert Held(parse[s], grown, windows, server[s]);
    assert forall k :: 0 <= k < SOURCES ==> Held(parse[k], logs[k], windows, server[k]);
  }

  /** Replacing or truncating the file keeps the bounds if the next read sees it: it starts at 0. */
  lemma ReplaceKeepsBounds<R>(parse: seq<Bytes -> seq<R>>, logs: seq<Log>, windows: bool, server: Stored<R>, s: nat,
                              identity: Token, data: Bytes)
    requires Bounded(parse, logs, windows, server) && s < SOURCES
    requires Start(Replaced(logs[s], identity, data), windows) == 0
    ensures Bounded(parse, logs[s := Replaced(logs[s], identity, data)], windows, server)
  {
    hide Lines, Parsed, StartOf;
    var log, next := logs[s], Replaced(logs[s], identity, data);
    assert Held(parse[s], log, windows, server[s]);
    assert next.earlier[..|log.earlier|] == log.earlier;
    assert AsSet(Committed(parse[s], next, windows)) == {} by { NothingBefore(parse[s], next, windows); }
    assert Held(parse[s], next, windows, server[s]);
    assert forall k :: 0 <= k < SOURCES ==> Held(parse[k], logs[k], windows, server[k]);
  }

  lemma NothingBefore<R>(parse: Bytes -> seq<R>, log: Log, windows: bool)
    requires Start(log, windows) == 0
    ensures Committed(parse, log, windows) == []
  {
    assert log.data[..0] == [];
  }

  // ----- over any history -----

  /** Bytes appended to a source's log, the file rotated or truncated, or a run: with sources away, with answers, or
      crashing before its commit. */
  datatype Event =
    | Appended(source: nat, bytes: Bytes)
    | Broken(source: nat, identity: Token, data: Bytes)
    | Ran(away: set<nat>, answers: nat -> Answer, crashes: bool)

  ghost predicate EndsClean(events: seq<Event>) {
    events != []
    && var last := events[|events| - 1];
       last.Ran? && !last.crashes && last.away == {} && AllDelivered(last.answers)
  }

  /** Every source's current file is on the server; if the path never held another, nothing else is. */
  ghost predicate Complete<R>(parse: seq<Bytes -> seq<R>>, logs: seq<Log>, server: Stored<R>)
    requires |parse| == |logs| == |server| == SOURCES
  {
    forall s :: 0 <= s < SOURCES ==>
      AsSet(Everything(parse[s], logs[s])) <= server[s]
      && (logs[s].earlier == [] ==> server[s] == AsSet(Everything(parse[s], logs[s])))
  }

  /** Any appends, rotations, truncations, failed batches and crashes, as far as reads can see them: the bounds always
      hold, and after a run that read every source, had every batch delivered and committed, the server holds the
      records of all complete lines of the current files. */
  method History<R>(parse: seq<Bytes -> seq<R>>, identities: seq<Token>, events: seq<Event>, cap: nat, windows: bool)
    returns (logs: seq<Log>, server: Stored<R>)
    requires cap > 0 && |parse| == |identities| == SOURCES
    ensures Bounded(parse, logs, windows, server)
    ensures EndsClean(events) ==> Complete(parse, logs, server)
  {
    hide Everything, Held, AllDelivered, Start, Complete;
    logs, server := [], [];
    for s := 0 to SOURCES
      invariant |logs| == |server| == s && forall k :: 0 <= k < s ==> Held(parse[k], logs[k], windows, server[k])
    {
      NothingHeld(parse[s], identities[s], windows);
      logs, server := logs + [Log(identities[s], [], [], None)], server + [{}];
    }
    for n := 0 to |events|
      invariant Bounded(parse, logs, windows, server)
      invariant EndsClean(events[..n]) ==> Complete(parse, logs, server)
    {
      match events[n] {
        case Appended(source, bytes) =>
          if source < SOURCES && Start(Grown(logs[source], bytes), windows) == Start(logs[source], windows) {
            AppendKeepsBounds(parse, logs, windows, server, source, bytes);
            logs := logs[source := Grown(logs[source], bytes)];
          }
        case Broken(source, identity, data) =>
          if source < SOURCES && Start(Replaced(logs[source], identity, data), windows) == 0 {
            ReplaceKeepsBounds(parse, logs, windows, server, source, identity, data);
            logs := logs[source := Replaced(logs[source], identity, data)];
          }
        case Ran(away, answers, crashes) =>
          var exitCode, committed, after, rotated, truncated, _ := RunOnce(parse, logs, away, cap, answers, windows, server);
          if crashes {
            CrashKeepsBounds(parse, logs, committed, windows, server, after);
          } else {
            if away == {} && exitCode == 0 { CleanIsComplete(parse, logs, committed, windows, server, after); }
            logs := committed;
          }
          server := after;
      }
    }
    assert events[..|events|] == events;
  }

  lemma NothingHeld<R>(parse: Bytes -> seq<R>, identity: Token, windows: bool)
    ensures Held(parse, Log(identity, [], [], None), windows, {})
  {
  }

  /** Uploaded but not committed: the bounds hold for the old cursors too. */
  lemma CrashKeepsBounds<R>(parse: seq<Bytes -> seq<R>>, logs: seq<Log>, committed: seq<Log>, windows: bool,
                            server: Stored<R>, after: Stored<R>)
    requires Bounded(parse, logs, windows, server) && Bounded(parse, committed, windows, after)
    requires forall s :: 0 <= s < SOURCES ==> SameFiles(committed[s], logs[s]) && server[s] <= after[s]
    ensures Bounded(parse, logs, windows, after)
  {
    hide StartOf, Parsed;
    forall s | 0 <= s < SOURCES ensures Held(parse[s], logs[s], windows, after[s]) {
      assert Held(parse[s], logs[s], windows, server[s]) && Held(parse[s], committed[s], windows, after[s]);
    }
  }

  lemma CleanIsComplete<R>(parse: seq<Bytes -> seq<R>>, logs: seq<Log>, committed: seq<Log>, windows: bool,
                           server: Stored<R>, after: Stored<R>)
    requires Bounded(parse, committed, windows, after) && |logs| == |server| == SOURCES
    requires forall s :: 0 <= s < SOURCES ==>
      SameFiles(committed[s], logs[s]) && after[s] == server[s] + AsSet(Everything(parse[s], logs[s]))
    ensures Complete(parse, committed, after)
  {
    hide StartOf, Parsed;
    forall s | 0 <= s < SOURCES
      ensures AsSet(Everything(parse[s], committed[s])) <= after[s]
      ensures committed[s].earlier == [] ==> after[s] == AsSet(Everything(parse[s], committed[s]))
    {
      assert Held(parse[s], committed[s], windows, after[s]);
      assert Ever(parse[s], []) == {};
    }
  }
}
