/** Progressive commit of the cursors (`_process_sources` in collector/v2_run.py): a chunk's cursor is saved only
    after its events were delivered, refused into the quarantine, or were quarantined before. */
module Cursors {
  import opened Text
  import opened Quarantines
  import opened Delivery
  import opened Reading
  import P = Patrons
  import opened PatronStore

  datatype Name = AcsLog | CheckinLog | RejectLog

  // The ACS log comes before the others, whose guard looks up the patrons it brings.
  const SOURCE_ORDER := [AcsLog, CheckinLog, RejectLog]

  type Saved = map<Name, Cursor>

  /** What a run meets: the k-th read's view of its file, the events its lines become and what they stage in the
      patron cache, the server, settings. */
  datatype Env = Env(views: nat -> View, transform: (Name, seq<Bytes>, nat) -> seq<SafeEvent>,
                     changes: (Name, seq<Bytes>, nat) -> seq<P.Change>, server: seq<Batch> -> Reply,
                     windows: bool, chunkLines: nat, maxPerRequest: nat)

  /** One saved cursor: the read that led to it, its lines, the quarantine at that time, and the requests made. */
  datatype Commit = Commit(name: Name, read: nat, lines: seq<Bytes>, cursor: Cursor, listed: seq<Entry>,
                           past: seq<Batch>, sent: seq<Batch>)

  function CursorOf(saved: Saved, name: Name): Option<Cursor> {
    if name in saved then Some(saved[name]) else None
  }

  /** The events that are not in the quarantine, in order. */
  function NotListed(events: seq<SafeEvent>, entries: seq<Entry>): seq<SafeEvent> {
    if events == [] then []
    else
      var earlier := NotListed(events[..|events| - 1], entries);
      if Skipped(entries, events[|events| - 1]) then earlier else earlier + [events[|events| - 1]]
  }

  /** The server's replies settle every event of the chunk that was not in the quarantine already. */
  ghost predicate Delivered(env: Env, c: Commit) {
    Extends(c.sent, c.past)
    && Settled(env.server, c.sent, |c.past|) == multiset(NotListed(env.transform(c.name, c.lines, c.read), c.listed))
    && (RoundsOf(env.server, c.sent, |c.past|) == [] ==>
          SentInOrder(c.sent, |c.past|, NotListed(env.transform(c.name, c.lines, c.read), c.listed)))
  }

  /** The requests up to the last saved cursor. */
  function SentUpTo(history: seq<Batch>, journal: seq<Commit>): seq<Batch> {
    if journal == [] then history else journal[|journal| - 1].sent
  }

  /** Each chunk's requests follow those of the chunk before it, and an empty one makes none. */
  predicate Chained(history: seq<Batch>, journal: seq<Commit>) {
    forall i :: 0 <= i < |journal| ==>
      journal[i].past == SentUpTo(history, journal[..i]) && (journal[i].lines == [] ==> journal[i].sent == journal[i].past)
  }

  lemma ChainGrows(history: seq<Batch>, journal: seq<Commit>, c: Commit)
    requires Chained(history, journal) && c.past == SentUpTo(history, journal) && (c.lines == [] ==> c.sent == c.past)
    ensures Chained(history, journal + [c]) && SentUpTo(history, journal + [c]) == c.sent
  {
    var all := journal + [c];
    forall i | 0 <= i < |all| ensures all[i].past == SentUpTo(history, all[..i]) {
      assert all[..i] == if i < |journal| then journal[..i] else journal;
    }
  }

  /** A commit a run may make: the lines are the next bounded chunk of the file, the cursor is just past them, and
      the chunk is delivered. */
  ghost predicate CommitOk(env: Env, before: Option<Cursor>, c: Commit, view: View) {
    && view.File?
    && var start := StartOf(before, view.identity, view.before, env.windows);
    && c.lines == AtMost(LinesFrom(view.data, start), env.chunkLines)
    && c.cursor == Cursor(Some(view.identity), start + |Flat(c.lines)|)
    && (c.lines != [] ==> Delivered(env, c))
  }

  function Replay(start: Saved, journal: seq<Commit>): Saved {
    if journal == [] then start
    else Replay(start, journal[..|journal| - 1])[journal[|journal| - 1].name := journal[|journal| - 1].cursor]
  }

  /** Every saved cursor, in order, is a commit over the cursors saved before it. Holds of every prefix too: a crash
      between two saves leaves the cursors of a prefix. */
  ghost predicate JournalOk(env: Env, start: Saved, journal: seq<Commit>) {
    forall i :: 0 <= i < |journal| ==>
      CommitOk(env, CursorOf(Replay(start, journal[..i]), journal[i].name), journal[i], env.views(journal[i].read))
  }

  function ChunkCount(journal: seq<Commit>): (n: nat)
    ensures n <= |journal|
  {
    if journal == [] then 0
    else ChunkCount(journal[..|journal| - 1]) + if journal[|journal| - 1].lines == [] then 0 else 1
  }

  /** The patron cache when exactly the chunks whose cursors were saved have been committed to it, in order. */
  function CacheAfter(env: Env, cache: P.Cache, today: int, journal: seq<Commit>): P.Cache {
    if journal == [] then cache
    else
      var before, c := CacheAfter(env, cache, today, journal[..|journal| - 1]), journal[|journal| - 1];
      if c.lines == [] then before else P.Commit(P.ApplyAll(before, env.changes(c.name, c.lines, c.read)), today)
  }

  lemma CacheGrows(env: Env, cache: P.Cache, today: int, journal: seq<Commit>, c: Commit)
    ensures CacheAfter(env, cache, today, journal + [c]) ==
      var before := CacheAfter(env, cache, today, journal);
      if c.lines == [] then before else P.Commit(P.ApplyAll(before, env.changes(c.name, c.lines, c.read)), today)
  {
    assert (journal + [c])[..|journal|] == journal;
  }

  /** Stages a chunk's changes one by one. */
  method StageAll(cache: PatronCache, changes: seq<P.Change>)
    modifies cache`overlay, cache`holdOverlay
    ensures cache.View() == P.ApplyAll(old(cache.View()), changes)
  {
    ghost var c := cache.View();
    for i := 0 to |changes|
      invariant cache.View() == P.ApplyAll(c, changes[..i])
    {
      assert changes[..i + 1][..i] == changes[..i];
      match changes[i] {
        case StageChange(pk, info, profile) => cache.Stage(pk, info, profile);
        case PutChange(item, hold) => cache.HoldPut(item, hold);
        case DeleteChange(item) => cache.HoldDelete(item);
      }
    }
    assert changes[..|changes|] == changes;
  }

  predicate NothingStaged(cache: P.Cache) {
    cache.overlay == map[] && cache.holdOverlay == map[]
  }

  lemma NoneDrained(env: Env, saved: Saved, lastRead: map<Name, nat>)
    ensures AllDrained(env, {}, saved, lastRead)
  {
  }

  /** Another source's read and saved cursor leave them so. */
  lemma Aside(env: Env, names: set<Name>, saved: Saved, lastRead: map<Name, nat>, name: Name, k: nat, cursor: Option<Cursor>)
    requires name !in names && AllDrained(env, names, saved, lastRead)
    ensures AllDrained(env, names, saved, lastRead[name := k])
    ensures cursor.Some? ==> AllDrained(env, names, saved[name := cursor.value], lastRead[name := k])
  {
    hide Drained;
  }

  lemma OneMoreDrained(env: Env, names: set<Name>, saved: Saved, lastRead: map<Name, nat>, name: Name)
    requires AllDrained(env, names, saved, lastRead)
    requires name in lastRead && Drained(env, name, CursorOf(saved, name), lastRead[name])
    ensures AllDrained(env, names + {name}, saved, lastRead)
  {
    hide Drained, CursorOf;
  }

  /** Each source was read, and had nothing left at its last read. */
  ghost predicate AllDrained(env: Env, names: set<Name>, saved: Saved, lastRead: map<Name, nat>) {
    forall name :: name in names ==> name in lastRead && Drained(env, name, CursorOf(saved, name), lastRead[name])
  }

  /** The source has nothing left to read at its last read: the file was away, or no complete line was left under
      the limit. */
  ghost predicate Drained(env: Env, name: Name, cursor: Option<Cursor>, k: nat) {
    var view := env.views(k);
    view.File? ==>
      && cursor.Some? && cursor.value.identity == Some(view.identity)
      && (LinesFrom(view.data, cursor.value.offset) == [] || view.after <= cursor.value.offset)
  }

  lemma JournalGrows(env: Env, start: Saved, journal: seq<Commit>, c: Commit)
    requires JournalOk(env, start, journal)
    requires CommitOk(env, CursorOf(Replay(start, journal), c.name), c, env.views(c.read))
    ensures JournalOk(env, start, journal + [c])
    ensures Replay(start, journal + [c]) == Replay(start, journal)[c.name := c.cursor]
    ensures ChunkCount(journal + [c]) == ChunkCount(journal) + if c.lines == [] then 0 else 1
  {
    hide CommitOk;
    var all := journal + [c];
    assert all[..|journal|] == journal;
    forall i | 0 <= i < |all|
      ensures CommitOk(env, CursorOf(Replay(start, all[..i]), all[i].name), all[i], env.views(all[i].read))
    {
      assert i < |journal| ==> all[..i] == journal[..i];
    }
  }

  method DropListed(events: seq<SafeEvent>, q: Quarantine) returns (kept: seq<SafeEvent>)
    ensures kept == NotListed(events, q.entries)
  {
    kept := [];
    var checkins := q.KeysFor(Checkins);
    var rejects := q.KeysFor(Rejects);
    var acsItems := q.KeysFor(AcsItems);
    for i := 0 to |events|
      invariant kept == NotListed(events[..i], q.entries)
    {
      assert events[..i + 1][..i] == events[..i];
      var e := events[i];
      var keys := match e.kind case Checkins => checkins case Rejects => rejects case AcsItems => acsItems;
      assert e.eventKey in keys <==> Skipped(q.entries, e);
      if e.eventKey !in keys { kept := kept + [e]; }
    }
    assert events[..|events|] == events;
  }

  /** The read's outcome: the next bounded chunk of the file, the cursor just past it, and whether more is there. */
  ghost predicate ReadIs(env: Env, cursor: Option<Cursor>, view: View, read: ChunkRead)
    requires view.File?
  {
    var start := StartOf(cursor, view.identity, view.before, env.windows);
    && read.lines == AtMost(LinesFrom(view.data, start), env.chunkLines)
    && read.cursor == Some(Cursor(Some(view.identity), start + |Flat(read.lines)|))
    && read.more == (view.after > start + |Flat(read.lines)| && |read.lines| >= env.chunkLines)
  }

  method ReadNext(env: Env, cursor: Option<Cursor>, k: nat) returns (read: ChunkRead)
    requires env.chunkLines > 0
    ensures read.existed <==> env.views(k).File?
    ensures read.existed ==> read.cursor.Some? && ReadIs(env, cursor, env.views(k), read)
  {
    hide LinesFrom, AtMost, Flat, StartOf;
    read := ReadChunk(env.views(k), cursor, env.chunkLines, env.windows);
  }

  /** It is a commit of the chunk it returned, and leaves the source drained if there is no more. */
  lemma ReadGivesCommit(env: Env, cursor: Option<Cursor>, read: ChunkRead, c: Commit)
    requires env.views(c.read).File? && read.cursor.Some? && c.lines == read.lines && c.cursor == read.cursor.value
    requires ReadIs(env, cursor, env.views(c.read), read)
    requires c.lines != [] ==> Delivered(env, c)
    requires env.chunkLines > 0
    ensures CommitOk(env, cursor, c, env.views(c.read))
    ensures !read.more || read.lines == [] ==> Drained(env, c.name, read.cursor, c.read)
  {
    hide Lines, Flat, Delivered;
    var view := env.views(c.read);
    var start := StartOf(cursor, view.identity, view.before, env.windows);
    EmptyFlat();
    if start <= |view.data| {
      var all := Lines(view.data, start);
      if |all| <= env.chunkLines {
        LinesSplit(view.data, start, |all|);
        assert all[..|all|] == all && all[|all|..] == [];
      }
    }
  }

  /** One chunk: its changes are staged, its events delivered, and the patron cache committed, before any cursor is
      saved. A failed delivery leaves the cache as it was; a commit that fails leaves the tables as they were or with
      the chunk's ledger rows alone. */
  method CommitChunk(env: Env, name: Name, lines: seq<Bytes>, cursor: Cursor, k: nat, history: seq<Batch>, q: Quarantine,
                     cache: PatronCache, ghost refuses: SafeEvent -> bool)
    returns (failed: Option<Category>, sent: seq<Batch>, ghost c: Commit, ghost torn: bool)
    requires 1 <= env.maxPerRequest <= 1000 && !q.readOnly && !cache.readOnly && NothingStaged(cache.View())
    modifies q`entries, q`file, cache`patrons, cache`holds, cache`overlay, cache`holdOverlay, cache`writesLeft
    ensures c.name == name && c.read == k && c.lines == lines && c.cursor == cursor && c.past == history
    ensures failed.None? ==> Delivered(env, c) && c.sent == sent
    ensures failed.None? ==> cache.View() == P.Commit(P.ApplyAll(old(cache.View()), env.changes(name, lines, k)), cache.today)
                             && NothingStaged(cache.View())
    ensures torn ==> failed == Some(Other) && Delivered(env, c)
                     && P.Discard(cache.View()) == LedgerOnly(old(cache.View()), env.changes(name, lines, k))
    ensures failed.Some? && !torn ==> P.Discard(cache.View()) == old(cache.View())
    ensures old(cache.writesLeft).None? ==> cache.writesLeft.None? && !torn
  {
    hide NotListed, Settled, AfterRounds, RoundsOf, AckedBy, Reports50, OutcomeOf, Slices, RefusedIn, Extends, P.ApplyAll,
      P.Commit, P.CommitHolds, Delivered, SentInOrder;
    StagedThenDropped(cache.View(), env.changes(name, lines, k), cache.today);
    c, torn := Commit(name, k, lines, cursor, q.entries, history, history), false;
    StageAll(cache, env.changes(name, lines, k));
    var events := DropListed(env.transform(name, lines, k), q);
    failed, sent := Deliver(events, env.maxPerRequest, env.server, history, q, refuses);
    if failed.Some? {
      cache.Discard();
      DiscardTwice(cache.View());
      return;
    }
    c := c.(sent := sent);
    JustDelivered(env, c);
    torn := !LedgerFails(cache.View(), cache.writesLeft);
    var ok := cache.Commit();
    torn := torn && !ok;
    if !ok { failed := Some(Other); }
  }

  /** The stored tables after a commit that stopped between its two transactions. */
  function LedgerOnly(before: P.Cache, changes: seq<P.Change>): P.Cache {
    P.Discard(P.CommitHolds(P.ApplyAll(before, changes)))
  }

  lemma DiscardTwice(c: P.Cache)
    ensures NothingStaged(c) ==> P.Discard(c) == c
  {
  }

  /** What a run has done so far: the cursors saved, the cache committed, the requests made and the chunks left. */
  ghost predicate SoFar(env: Env, start: Saved, history: seq<Batch>, table: P.Cache, today: int, journal: seq<Commit>,
                        saved: Saved, cache: P.Cache, sent: seq<Batch>, used: nat) {
    && JournalOk(env, start, journal) && saved == Replay(start, journal)
    && cache == CacheAfter(env, table, today, journal) && NothingStaged(cache)
    && Chained(history, journal) && sent == SentUpTo(history, journal)
    && used == ChunkCount(journal)
  }

  lemma SoFarGrows(env: Env, start: Saved, history: seq<Batch>, table: P.Cache, today: int, journal: seq<Commit>,
                   saved: Saved, cache: P.Cache, sent: seq<Batch>, used: nat, c: Commit, next: P.Cache)
    requires SoFar(env, start, history, table, today, journal, saved, cache, sent, used)
    requires CommitOk(env, CursorOf(saved, c.name), c, env.views(c.read))
    requires c.past == sent && (c.lines == [] ==> c.sent == c.past) && NothingStaged(next)
    requires next == if c.lines == [] then cache else P.Commit(P.ApplyAll(cache, env.changes(c.name, c.lines, c.read)), today)
    ensures SoFar(env, start, history, table, today, journal + [c], saved[c.name := c.cursor], next, c.sent,
                  used + if c.lines == [] then 0 else 1)
  {
    hide CommitOk, JournalOk, Replay, CacheAfter, Chained, ChunkCount, P.ApplyAll, P.Commit;
    JournalGrows(env, start, journal, c);
    CacheGrows(env, table, today, journal, c);
    ChainGrows(history, journal, c);
  }

  /** The chunks of the ACS log come before those of the other logs. */
  predicate AcsFirst(journal: seq<Commit>) {
    forall i, j :: 0 <= i < j < |journal| && journal[j].name == AcsLog ==> journal[i].name == AcsLog
  }

  predicate OnlyAcs(journal: seq<Commit>) {
    forall i :: 0 <= i < |journal| ==> journal[i].name == AcsLog
  }

  lemma AcsFirstGrows(journal: seq<Commit>, name: Name)
    requires AcsFirst(journal) && (name == AcsLog ==> OnlyAcs(journal))
    ensures forall c: Commit :: c.name == name ==> AcsFirst(journal + [c]) && (name == AcsLog ==> OnlyAcs(journal + [c]))
  {
  }

  lemma NoneYet()
    ensures AcsFirst([]) && OnlyAcs([])
  {
  }

  /** What the stored tables are when a run ends: those after the saved chunks, or, if a commit failed between its
      two transactions, those with the torn chunk's ledger rows besides. */
  ghost predicate TablesAre(env: Env, before: P.Cache, today: int, journal: seq<Commit>, torn: Option<Commit>, cache: P.Cache) {
    var committed := CacheAfter(env, before, today, journal);
    match torn
    case None => P.Discard(cache) == committed
    case Some(c) => Delivered(env, c) && P.Discard(cache) == LedgerOnly(committed, env.changes(c.name, c.lines, c.read))
  }

  /** All reads so far come before this one. */
  predicate ReadsBefore(journal: seq<Commit>, lastRead: map<Name, nat>, k: nat) {
    (forall i :: 0 <= i < |journal| ==> journal[i].read < k) && forall name :: name in lastRead ==> lastRead[name] < k
  }

  /** The run made no read after this one, and saved no cursor of it. */
  predicate NothingReadAfter(journal: seq<Commit>, lastRead: map<Name, nat>, k: nat) {
    (forall i :: 0 <= i < |journal| ==> journal[i].read < k) && forall name :: name in lastRead ==> lastRead[name] <= k
  }

  lemma NothingRead()
    ensures ReadsBefore([], map[], 0)
  {
  }

  lemma OneMoreRead(journal: seq<Commit>, lastRead: map<Name, nat>, name: Name, k: nat)
    requires ReadsBefore(journal, lastRead, k)
    ensures NothingReadAfter(journal, lastRead[name := k], k) && ReadsBefore(journal, lastRead[name := k], k + 1)
    ensures forall c: Commit :: c.read == k ==> ReadsBefore(journal + [c], lastRead[name := k], k + 1)
  {
  }

  lemma TablesSaved(env: Env, before: P.Cache, today: int, journal: seq<Commit>, cache: P.Cache)
    requires P.Discard(cache) == CacheAfter(env, before, today, journal)
    ensures TablesAre(env, before, today, journal, None, cache)
  {
  }

  lemma TablesTorn(env: Env, before: P.Cache, today: int, journal: seq<Commit>, c: Commit, cache: P.Cache)
    requires Delivered(env, c)
    requires P.Discard(cache) == LedgerOnly(CacheAfter(env, before, today, journal), env.changes(c.name, c.lines, c.read))
    ensures TablesAre(env, before, today, journal, Some(c), cache)
  {
  }

  /** One run over the sources. Every cursor it saves is a sound commit over those saved before; it commits at most
      `budget` chunks; however it ends, the patron cache holds what exactly those chunks staged and nothing of one
      that failed, but for the ledger rows of a delivered chunk whose commit stopped halfway; and when it ends well
      with budget to spare, every configured source was read to its end. */
  method ProcessSources(env: Env, configured: set<Name>, start: Saved, budget: nat, history: seq<Batch>, q: Quarantine,
                        cache: PatronCache, ghost refuses: SafeEvent -> bool)
    returns (failure: Option<Category>, saved: Saved, ghost journal: seq<Commit>, ghost lastRead: map<Name, nat>,
             ghost torn: Option<Commit>, ghost lost: Option<Commit>)
    requires 1 <= env.maxPerRequest <= 1000 && env.chunkLines > 0 && !q.readOnly
    requires !cache.readOnly && NothingStaged(cache.View())
    modifies q`entries, q`file, cache`patrons, cache`holds, cache`overlay, cache`holdOverlay, cache`writesLeft
    ensures JournalOk(env, start, journal) && saved == Replay(start, journal) && Chained(history, journal)
    ensures TablesAre(env, old(cache.View()), cache.today, journal, torn, cache.View())
    ensures failure.None? ==> NothingStaged(cache.View())
    ensures torn.Some? ==> failure == Some(Other) && torn == lost && old(cache.writesLeft).Some?
    ensures (failure.Some? <==> lost.Some?) && (lost.Some? ==> lost.value.lines != [] && NothingReadAfter(journal, lastRead, lost.value.read))
    ensures ChunkCount(journal) <= budget && AcsFirst(journal)
    ensures failure.None? && ChunkCount(journal) < budget ==> AllDrained(env, configured, saved, lastRead)
  {
    hide CommitOk, Delivered, Drained, JournalOk, Replay, ChunkCount, NotListed, LinesFrom, AtMost, Flat, Settled, AfterRounds,
      RoundsOf, AckedBy, Reports50, OutcomeOf, Slices, StartOf, Rotated, Truncated, RefusedIn, Extends, CacheAfter, P.ApplyAll,
      P.Commit, P.CommitHolds, Chained, SentUpTo, NothingStaged, SoFar, AcsFirst, OnlyAcs, LedgerOnly,
      TablesAre, P.Discard, Lines, RefusedKept, Skipped, LedgerFails, Takes, AllDrained, ReadIs, ReadsBefore, NothingReadAfter;
    NoneYet();
    ghost var table := cache.View();
    saved, journal, lastRead, torn, lost := start, [], map[], None, None;
    EmptyJournal(env, start, history, table, cache.today);
    NoneDrained(env, saved, lastRead);
    assert configured * {} == {};
    var left := budget;
    var sent := history;
    var turn: nat := 0;
    NothingRead();
    ghost var done: set<Name> := {};
    for s := 0 to |SOURCE_ORDER|
      invariant 0 <= left <= budget
      invariant SoFar(env, start, history, table, cache.today, journal, saved, cache.View(), sent, budget - left)
      invariant done == set i | 0 <= i < s :: SOURCE_ORDER[i]
      invariant ReadsBefore(journal, lastRead, turn)
      invariant AcsFirst(journal) && (s == 0 ==> journal == []) && (old(cache.writesLeft).None? ==> cache.writesLeft.None?)
      invariant left > 0 ==> AllDrained(env, configured * done, saved, lastRead)
    {
      var name := SOURCE_ORDER[s];
      assert name !in done;
      ghost var before := done;
      done := done + {name};
      if name in configured {
        var cursor := CursorOf(saved, name);
        while left > 0
          invariant 0 <= left <= budget && cursor == CursorOf(saved, name)
          invariant AcsFirst(journal) && (s == 0 ==> OnlyAcs(journal)) && ReadsBefore(journal, lastRead, turn)
          invariant old(cache.writesLeft).None? ==> cache.writesLeft.None?
          invariant SoFar(env, start, history, table, cache.today, journal, saved, cache.View(), sent, budget - left)
          invariant left > 0 ==> AllDrained(env, configured * before, saved, lastRead)
          decreases left
        {
          var read := ReadNext(env, cursor, turn);
          Aside(env, configured * before, saved, lastRead, name, turn, read.cursor);
          OneMoreRead(journal, lastRead, name, turn);
          lastRead := lastRead[name := turn];
          turn := turn + 1;
          if !read.existed {
            assert Drained(env, name, cursor, turn - 1) by { AwayIsDrained(env, name, cursor, turn - 1); }
            break;
          }
          ghost var c := Commit(name, turn - 1, read.lines, read.cursor.value, q.entries, sent, sent);
          AcsFirstGrows(journal, name);
          if read.lines == [] {
            ReadGivesCommit(env, cursor, read, c);
            if read.cursor != cursor {
              SoFarFacts(env, start, history, table, cache.today, journal, saved, cache.View(), sent, budget - left);
              SoFarGrows(env, start, history, table, cache.today, journal, saved, cache.View(), sent, budget - left, c, cache.View());
              journal := journal + [c];
              saved := saved[name := read.cursor.value];
              cursor := read.cursor;
            }
            break;
          }
          ghost var committed, past := cache.View(), sent;
          SoFarFacts(env, start, history, table, cache.today, journal, saved, cache.View(), sent, budget - left);
          var failed;
          ghost var halfway;
          failed, sent, c, halfway := CommitChunk(env, name, read.lines, read.cursor.value, turn - 1, sent, q, cache, refuses);
          if failed.Some? {
            SoFarFacts(env, start, history, table, cache.today, journal, saved, committed, past, budget - left);
            if halfway {
              TablesTorn(env, table, cache.today, journal, c, cache.View());
            } else {
              TablesSaved(env, table, cache.today, journal, cache.View());
            }
            return failed, saved, journal, lastRead, if halfway then Some(c) else None, Some(c);
          }
          ReadGivesCommit(env, cursor, read, c);
          SoFarGrows(env, start, history, table, cache.today, journal, saved, committed, past, budget - left, c, cache.View());
          journal := journal + [c];
          saved := saved[name := read.cursor.value];
          cursor := read.cursor;
          left := left - 1;
          if !read.more { break; }
        }
        if left > 0 { OneMoreDrained(env, configured * before, saved, lastRead, name); }
        assert configured * done == configured * before + {name};
      } else {
        assert configured * done == configured * before;
      }
    }
    forall name: Name ensures name in done {
      match name
      case AcsLog => assert SOURCE_ORDER[0] in done;
      case CheckinLog => assert SOURCE_ORDER[1] in done;
      case RejectLog => assert SOURCE_ORDER[2] in done;
    }
    assert configured * done == configured;
    SoFarFacts(env, start, history, table, cache.today, journal, saved, cache.View(), sent, budget - left);
    DiscardTwice(cache.View());
    TablesSaved(env, table, cache.today, journal, cache.View());
    return None, saved, journal, lastRead, None, None;
  }

  lemma SoFarFacts(env: Env, start: Saved, history: seq<Batch>, table: P.Cache, today: int, journal: seq<Commit>,
                   saved: Saved, cache: P.Cache, sent: seq<Batch>, used: nat)
    requires SoFar(env, start, history, table, today, journal, saved, cache, sent, used)
    ensures JournalOk(env, start, journal) && saved == Replay(start, journal) && Chained(history, journal)
    ensures cache == CacheAfter(env, table, today, journal) && NothingStaged(cache) && used == ChunkCount(journal)
  {
  }

  /** Discarding gives back the committed cache, and committing leaves nothing staged. */
  lemma StagedThenDropped(c: P.Cache, changes: seq<P.Change>, today: int)
    requires NothingStaged(c)
    ensures P.Discard(P.ApplyAll(c, changes)) == c && NothingStaged(P.Commit(P.ApplyAll(c, changes), today))
  {
    P.StagedChanges(c, changes, today);
    P.CommitKeepsAnswers(P.ApplyAll(c, changes), today);
  }

  lemma EmptyJournal(env: Env, start: Saved, history: seq<Batch>, cache: P.Cache, today: int)
    requires NothingStaged(cache)
    ensures SoFar(env, start, history, cache, today, [], start, cache, history, 0)
  {
  }

  lemma AwayIsDrained(env: Env, name: Name, cursor: Option<Cursor>, k: nat)
    requires !env.views(k).File?
    ensures Drained(env, name, cursor, k)
  {
  }

  lemma JustDelivered(env: Env, c: Commit)
    requires Extends(c.sent, c.past)
    requires Settled(env.server, c.sent, |c.past|) == multiset(NotListed(env.transform(c.name, c.lines, c.read), c.listed))
    requires RoundsOf(env.server, c.sent, |c.past|) == [] ==>
      SentInOrder(c.sent, |c.past|, NotListed(env.transform(c.name, c.lines, c.read), c.listed))
    ensures Delivered(env, c)
  {
  }

  // ----- one source over all runs -----

  /** A source file, the cursor saved for it, and (only to state the property) the commits since reading last
      started at the file's beginning. */
  datatype World = World(identity: Token, data: Bytes, saved: Option<Cursor>, commits: seq<Commit>)

  /** What can happen to a source: it is appended to (any bytes, also part of a line), replaced under a new identity,
      or cut; or a run reads it and saves a cursor, or fails or crashes before that. */
  datatype Step = Append(bytes: Bytes) | Replace(identity: Token, data: Bytes) | Cut(data: Bytes)
                | Read(commit: Option<Commit>)

  /** The saved cursor names this file. */
  predicate Known(w: World, windows: bool) {
    w.saved.Some? && w.saved.value.identity.Some? && SameFile(w.saved.value.identity.value, w.identity, windows)
  }

  function ViewOf(w: World): View {
    File(w.identity, |w.data|, w.data, |w.data|)
  }

  /** A new identity is new; a cut under a known cursor either shows in the size until the next read, or leaves the
      bytes before the cursor alone; and a commit is one `ProcessSources` may make. */
  ghost predicate Allowed(env: Env, w: World, step: Step) {
    match step
    case Append(bytes) =>
      Known(w, env.windows) && |w.data| < w.saved.value.offset ==> |w.data + bytes| < w.saved.value.offset
    case Replace(identity, data) =>
      !Known(w.(identity := identity), env.windows)
    case Cut(data) =>
      Known(w, env.windows) && |data| >= w.saved.value.offset ==>
        |w.data| >= w.saved.value.offset && data[..w.saved.value.offset] == w.data[..w.saved.value.offset]
    case Read(commit) =>
      commit.Some? ==> CommitOk(env, w.saved, commit.value, ViewOf(w))
  }

  function Next(env: Env, w: World, step: Step): World {
    match step
    case Append(bytes) => w.(data := w.data + bytes)
    case Replace(identity, data) => w.(identity := identity, data := data)
    case Cut(data) => w.(data := data)
    case Read(commit) =>
      if commit.None? then w
      else
        var start := StartOf(w.saved, w.identity, |w.data|, env.windows);
        w.(saved := Some(commit.value.cursor), commits := (if start == 0 then [] else w.commits) + [commit.value])
  }

  function LinesOf(commits: seq<Commit>): seq<Bytes> {
    if commits == [] then [] else LinesOf(commits[..|commits| - 1]) + commits[|commits| - 1].lines
  }

  /** The bytes before the cursor are exactly the lines of the commits, and every commit was delivered. */
  ghost predicate Safe(env: Env, w: World) {
    (forall i :: 0 <= i < |w.commits| ==> w.commits[i].lines != [] ==> Delivered(env, w.commits[i]))
    && (Known(w, env.windows) && w.saved.value.offset <= |w.data| ==> Covered(w))
  }

  predicate Covered(w: World)
    requires w.saved.Some? && w.saved.value.offset <= |w.data|
  {
    AreLines(LinesOf(w.commits)) && Flat(LinesOf(w.commits)) == w.data[..w.saved.value.offset]
  }

  lemma CommitKeepsSafe(env: Env, w: World, c: Commit)
    requires Safe(env, w) && CommitOk(env, w.saved, c, ViewOf(w))
    ensures Safe(env, Next(env, w, Read(Some(c))))
  {
    hide Lines, Flat, Delivered, AreLines, SameFile, StartOf, LinesOf;
    var start := StartOf(w.saved, w.identity, |w.data|, env.windows);
    var earlier := if start == 0 then [] else w.commits;
    assert (earlier + [c])[..|earlier|] == earlier;
    StartIsCovered(env, w);
    NextLinesCovered(w.data, start, LinesOf(earlier), env.chunkLines);
    assert LinesOf(earlier + [c]) == LinesOf(earlier) + c.lines by { OneMoreCommit(earlier, c); }
  }

  lemma OneMoreCommit(commits: seq<Commit>, c: Commit)
    ensures LinesOf(commits + [c]) == LinesOf(commits) + c.lines
  {
    assert (commits + [c])[..|commits|] == commits;
  }

  /** Where the next read starts, the lines so far cover what is before. */
  lemma StartIsCovered(env: Env, w: World)
    requires Safe(env, w)
    ensures var start := StartOf(w.saved, w.identity, |w.data|, env.windows);
      var lines := LinesOf(if start == 0 then [] else w.commits);
      start <= |w.data| && AreLines(lines) && Flat(lines) == w.data[..start]
  {
    hide Lines, Flat, Delivered, AreLines, SameFile;
    assert AreLines([]) && Flat([]) == [] by { EmptyFlat(); NoneAreLines(); }
  }

  lemma NoneAreLines()
    ensures AreLines([])
  {
  }

  lemma NextLinesCovered(data: Bytes, start: nat, lines: seq<Bytes>, max: nat)
    requires start <= |data| && AreLines(lines) && Flat(lines) == data[..start]
    ensures var next := AtMost(LinesFrom(data, start), max);
      && start + |Flat(next)| <= |data| && AreLines(lines + next) && Flat(lines + next) == data[..start + |Flat(next)|]
  {
    hide Lines, Flat, IsLine;
    var all := Lines(data, start);
    var next := AtMost(all, max);
    LinesAreLines(data, start);
    LinesSplit(data, start, |next|);
    assert all[..|all|] == all;
    FlatConcat(lines, next);
    assert data[..start] + data[start..start + |Flat(next)|] == data[..start + |Flat(next)|];
  }

  function Run(env: Env, w: World, steps: seq<Step>): World {
    if steps == [] then w else Next(env, Run(env, w, steps[..|steps| - 1]), steps[|steps| - 1])
  }

  ghost predicate AllAllowed(env: Env, w: World, steps: seq<Step>) {
    forall i :: 0 <= i < |steps| ==> Allowed(env, Run(env, w, steps[..i]), steps[i])
  }

  /** Each step keeps the property. */
  lemma StepKeepsSafe(env: Env, w: World, step: Step)
    requires Safe(env, w) && Allowed(env, w, step)
    ensures Safe(env, Next(env, w, step))
  {
    hide CommitOk, Delivered, AreLines, Flat, LinesOf;
    match step
    case Append(bytes) =>
      if Known(w, env.windows) && w.saved.value.offset <= |w.data| {
        var n := w.saved.value.offset;
        assert (w.data + bytes)[..n] == w.data[..n];
      }
    case Replace(_, _) =>
    case Cut(_) =>
    case Read(commit) =>
      if commit.Some? { CommitKeepsSafe(env, w, commit.value); }
  }

  lemma {:induction false} RunsAreSafe(env: Env, w: World, steps: seq<Step>)
    requires Safe(env, w) && AllAllowed(env, w, steps)
    ensures Safe(env, Run(env, w, steps))
  {
    hide Safe, Allowed, Next;
    if steps != [] {
      var init := steps[..|steps| - 1];
      assert forall i :: 0 <= i < |init| ==> init[..i] == steps[..i];
      RunsAreSafe(env, w, init);
      assert Allowed(env, Run(env, w, init), steps[|steps| - 1]);
      StepKeepsSafe(env, Run(env, w, init), steps[|steps| - 1]);
    }
  }

  lemma {:induction false} FirstLinesOf(data: Bytes, i: nat, lines: seq<Bytes>)
    requires AreLines(lines) && i + |Flat(lines)| <= |data| && data[i..i + |Flat(lines)|] == Flat(lines)
    ensures |lines| <= |Lines(data, i)| && Lines(data, i)[..|lines|] == lines
    decreases |lines|
  {
    if lines != [] {
      var e, end := i + |lines[0]|, i + |Flat(lines)|;
      assert data[i..e] == data[i..end][..|lines[0]|] == lines[0];
      assert forall j :: i <= j < e ==> data[j] == lines[0][j - i];
      PastNewlineIs(data, i, e);
      assert data[e..end] == data[i..end][|lines[0]|..] == Flat(lines[1..]);
      FirstLinesOf(data, e, lines[1..]);
      assert Lines(data, i)[..|lines|] == [data[i..e]] + Lines(data, e)[..|lines| - 1];
    }
  }

  /** Every commit was delivered, and a cursor that names the file and does not exceed it stands at 0 or just past a
      newline, with the lines of the commits being exactly the complete lines before it. */
  ghost predicate CursorBehind(env: Env, w: World) {
    && (forall i :: 0 <= i < |w.commits| ==> w.commits[i].lines != [] ==> Delivered(env, w.commits[i]))
    && (Known(w, env.windows) && w.saved.value.offset <= |w.data| ==>
          var n, lines := w.saved.value.offset, LinesOf(w.commits);
          && |lines| <= |CompleteLines(w.data)| && lines == CompleteLines(w.data)[..|lines|] && |Flat(lines)| == n
          && (n > 0 ==> w.data[n - 1] == NEWLINE))
  }

  lemma SafeIsBehind(env: Env, w: World)
    requires Safe(env, w)
    ensures CursorBehind(env, w)
  {
    hide Delivered, Lines, Flat, AreLines;
    if Known(w, env.windows) && w.saved.value.offset <= |w.data| {
      var n, lines := w.saved.value.offset, LinesOf(w.commits);
      assert w.data[0..n] == w.data[..n];
      FirstLinesOf(w.data, 0, lines);
      LinesSplit(w.data, 0, |lines|);
      assert n == 0 || lines != [] by { EmptyFlat(); }
    }
  }

  /** The cursor never leads delivery: from a fresh start, whatever is appended, replaced or cut and however runs fail
      or crash, the complete lines before the cursor are those of committed chunks, every event of which was
      acknowledged, refused, or quarantined before. */
  lemma CursorNeverLeads(env: Env, start: World, steps: seq<Step>)
    requires start.saved.None? && start.commits == [] && AllAllowed(env, start, steps)
    ensures CursorBehind(env, Run(env, start, steps))
  {
    hide Run, AllAllowed, CursorBehind;
    RunsAreSafe(env, start, steps);
    SafeIsBehind(env, Run(env, start, steps));
  }

  /** Each event of a delivered chunk was in the quarantine, was in a request the server says it has stored, or stood
      at a position that a 409 or a 422 to its request reports. */
  lemma EveryEventSettled(env: Env, c: Commit, e: SafeEvent)
    requires Delivered(env, c) && e in env.transform(c.name, c.lines, c.read)
    ensures Skipped(c.listed, e) || Stored(env.server, c.sent, |c.past|, e) || Reported(env.server, c.sent, |c.past|, e)
  {
    hide AckedBy, RefusedIn, RoundsOf, Stored, Reported;
    var events := env.transform(c.name, c.lines, c.read);
    if !Skipped(c.listed, e) {
      KeepsUnlisted(events, c.listed, e);
      assert e in multiset(NotListed(events, c.listed));
      assert e in Settled(env.server, c.sent, |c.past|);
      AckedIsStored(env.server, c.sent, |c.past|, e);
      if e in RefusedIn(RoundsOf(env.server, c.sent, |c.past|)) {
        RefusedIsReported(env.server, c.sent, |c.past|, e);
      }
    }
  }

  /** Exactly the events that are not in the quarantine are delivered. */
  lemma {:induction false} KeepsUnlisted(events: seq<SafeEvent>, entries: seq<Entry>, e: SafeEvent)
    ensures e in NotListed(events, entries) <==> e in events && !Skipped(entries, e)
  {
    if events != [] {
      var n := |events| - 1;
      KeepsUnlisted(events[..n], entries, e);
      assert events == events[..n] + [events[n]];
    }
  }

  /** The condition on cuts and growth is exact: other bytes put into a file under its known cursor keep the property
      if and only if the file ends before the cursor or the committed bytes are still there. */
  lemma OtherBytesExactly(env: Env, w: World, data: Bytes)
    requires Safe(env, w) && Known(w, env.windows) && w.saved.value.offset <= |w.data|
    ensures var n := w.saved.value.offset;
      Safe(env, w.(data := data)) <==> |data| < n || data[..n] == w.data[..n]
  {
    hide Delivered, Flat, AreLines;
  }
}
