/** Retries that read more lines than the attempts that failed. Each attempt reads what the file has by then and can
    stop anywhere, so the attempts need not agree on a patron's outcome. Their corrections of one ledger row carry
    one revision as long as the ledger is not committed, and a correction that the server has stored is never taken
    back there. `Told` follows one item through such attempts; the exact condition for the last one is read off it. */
module LongerRetry {
  import opened Text
  import opened Identity
  import opened Classify
  import opened Patrons
  import opened Transform
  import opened Server
  import opened Ledger
  import opened Provenance
  import opened Refinement
  import opened Runs
  import opened Retry
  import opened Crashes
  import opened Limits
  import opened OneItem

  // ----- what is stored of one item -----

  /** One item between attempts: its ledger row, the outcome its patron's stored profile has, the flags of the
      corrections that the server holds beyond the row's revision, in the order they were stored, and the flags of
      the row a reader sees. */
  datatype Told = Told(hold: LedgerHold, outcome: Flags, pending: seq<Flags>, seen: Flags)

  function Said(item: HexKey, h: LedgerHold, flags: Flags): Content {
    HoldContent(h.time, item, h.destination, flags)
  }

  ghost predicate RowsTell(keys: Keys, rows: seq<AcsEvent>, item: HexKey, t: Told) {
    Server.Latest(rows, item) == Some(Said(item, t.hold, t.seen))
    && forall f: Flags, n: nat :: n > t.hold.revision ==>
         (HasKey(rows, EventKey(keys, Said(item, t.hold, f), n)) <==> n == t.hold.revision + 1 && f in t.pending)
  }

  ghost predicate Tells(ctx: Context, d: Disk, item: HexKey, t: Told) {
    HoldGet(Opened(d), item) == Some(t.hold) && Outcome(ctx, Opened(d), t.hold.patron) == t.outcome
    && RowsTell(ctx.keys, d.rows, item, t)
  }

  /** Where the invariant holds and the ledger row is the item's latest record, nothing is pending. */
  lemma CleanTells(ctx: Context, d: Disk, item: HexKey, w: Option<AcsRecord>, h: LedgerHold)
    requires SoundKeys(ctx.keys) && AllKeyed(ctx.keys, d.rows) && HoldGet(Opened(d), item) == Some(h)
    requires ItemInv(ctx.keys, d.rows, item, w, Some(h), Outcome(ctx, Opened(d), h.patron)) && h.time == w.value.when
    ensures Tells(ctx, d, item, Told(h, Outcome(ctx, Opened(d), h.patron), [], h.flags))
    ensures h.flags == Combine(h.own, Outcome(ctx, Opened(d), h.patron))
  {
    hide IsHexKey, IsDestination, IsLineText, EventKey, SoundKeys, AllKeyed, Server.Latest, HasKey, ProfileOutcome, Combine, HoldGet;
    forall f: Flags, n: nat | n > h.revision ensures !HasKey(d.rows, EventKey(ctx.keys, Said(item, h, f), n)) {
      FreshHold(ctx.keys, d.rows, Said(item, h, f), n, h.revision);
    }
  }

  // ----- one attempt -----

  /** Whether an outcome brings a correction: it is not the stored one, and it sets the row's flags differently. */
  predicate Corrects(t: Told, outcome: Flags) {
    outcome != t.outcome && Combine(t.hold.own, outcome) != t.hold.flags
  }

  /** The server stores the correction, unless it has one of the same flags and revision. */
  function Sent(t: Told, outcome: Flags): Told {
    var f := Combine(t.hold.own, outcome);
    if !Corrects(t, outcome) || f in t.pending then t else t.(pending := t.pending + [f], seen := f)
  }

  /** The ledger moves on with a correction, and nothing is pending for its new revision. */
  function Ledgered(t: Told, outcome: Flags): Told {
    if !Corrects(t, outcome) then t
    else Told(CorrectedHold(t.hold, outcome), t.outcome, [], Sent(t, outcome).seen)
  }

  function OutcomeOver(ctx: Context, t: Told, records: seq<AcsRecord>): Flags {
    NewOutcome(ctx, t.outcome, records, t.hold.patron)
  }

  /** Whether the correction is among the first n events of the attempt. */
  ghost predicate Reached(ctx: Context, d: Disk, records: seq<AcsRecord>, n: nat, item: HexKey, t: Told) {
    var outcome := OutcomeOver(ctx, t, records);
    Corrects(t, outcome) && CorrectionOf(ctx.keys, item, t.hold, outcome)[0] in Prefix(Out(ctx, d, records).events, n)
  }

  ghost function AfterStop(ctx: Context, d: Disk, records: seq<AcsRecord>, stop: Stop, item: HexKey, t: Told): Told {
    var outcome := OutcomeOver(ctx, t, records);
    match stop
    case AfterEvents(n) => if Reached(ctx, d, records, n, item, t) then Sent(t, outcome) else t
    case AfterHolds => Ledgered(t, outcome)
    case AfterPatrons => Ledgered(t, outcome).(outcome := outcome)
  }

  lemma SameItemReflexive(keys: Keys, rows: seq<AcsEvent>, item: HexKey)
    ensures SameItem(keys, rows, rows, item)
  {
  }

  lemma KeyedPrefix(keys: Keys, events: seq<AcsEvent>, n: nat)
    requires AllKeyed(keys, events)
    ensures AllKeyed(keys, Prefix(events, n))
  {
  }

  /** Rows that agree on the item tell the same. */
  lemma SameItemTells(keys: Keys, a: seq<AcsEvent>, b: seq<AcsEvent>, item: HexKey, t: Told)
    requires SameItem(keys, a, b, item) && RowsTell(keys, b, item, t)
    ensures RowsTell(keys, a, item, t)
  {
    hide IsHexKey, IsDestination, IsLineText, EventKey, HasKey, Server.Latest;
    forall f: Flags, n: nat | n > t.hold.revision
      ensures HasKey(a, EventKey(keys, Said(item, t.hold, f), n)) <==> n == t.hold.revision + 1 && f in t.pending
    {
      assert Said(item, t.hold, f).item == item;
    }
  }

  /** Storing the item's correction. */
  lemma CorrectionTells(keys: Keys, rows: seq<AcsEvent>, item: HexKey, t: Told, outcome: Flags)
    requires SoundKeys(keys) && RowsTell(keys, rows, item, t) && Corrects(t, outcome)
    ensures RowsTell(keys, Insert(rows, CorrectionOf(keys, item, t.hold, outcome)[0]), item, Sent(t, outcome))
  {
    hide IsHexKey, IsDestination, IsLineText, EventKey, HasKey, Server.Latest, Insert, SoundKeys, Combine;
    var rev := t.hold.revision + 1;
    var g := Combine(t.hold.own, outcome);
    var e := CorrectionOf(keys, item, t.hold, outcome)[0];
    assert e == BuildAcsItem(keys, Said(item, t.hold, g), rev);
    InsertLatest(rows, e, item);
    assert HasKey(rows, EventKey(keys, Said(item, t.hold, g), rev)) <==> g in t.pending;
    var after := Sent(t, outcome);
    forall f: Flags, n: nat | n > t.hold.revision
      ensures HasKey(Insert(rows, e), EventKey(keys, Said(item, t.hold, f), n)) <==> n == rev && f in after.pending
    {
      HasKeyInserted(rows, e, EventKey(keys, Said(item, t.hold, f), n));
      if e.eventKey == EventKey(keys, Said(item, t.hold, f), n) {
        EventKeyDetermines(keys, Said(item, t.hold, g), rev, Said(item, t.hold, f), n);
      }
    }
  }

  /** The rows after any of the attempt's events. */
  lemma EventsTell(keys: Keys, rows: seq<AcsEvent>, events: seq<AcsEvent>, item: HexKey, t: Told, outcome: Flags, sent: bool)
    requires SoundKeys(keys) && RowsTell(keys, rows, item, t) && AllKeyed(keys, events) && (sent ==> Corrects(t, outcome))
    requires EventsAbout(events, item) == if sent then CorrectionOf(keys, item, t.hold, outcome) else []
    ensures RowsTell(keys, InsertAll(rows, events), item, if sent then Sent(t, outcome) else t)
  {
    hide IsHexKey, IsDestination, IsLineText, EventKey, RowsTell, SameItem, SoundKeys, AllKeyed, EventsAbout, Sent, Insert, Combine;
    SameItemReflexive(keys, rows, item);
    AboutDecides(keys, rows, rows, item, events);
    if sent {
      CorrectionTells(keys, rows, item, t, outcome);
      OneInserted(rows, CorrectionOf(keys, item, t.hold, outcome)[0]);
    } else {
      NoneInserted(rows);
    }
    SameItemTells(keys, InsertAll(rows, events), InsertAll(rows, EventsAbout(events, item)), item, if sent then Sent(t, outcome) else t);
  }

  lemma NoneInserted(rows: seq<AcsEvent>)
    ensures InsertAll(rows, []) == rows
  {
  }

  lemma OneInserted(rows: seq<AcsEvent>, e: AcsEvent)
    ensures InsertAll(rows, [e]) == Insert(rows, e)
  {
    assert [e][..0] == [];
  }

  /** What the attempt's first n events say of the item. */
  lemma PrefixAbout(ctx: Context, d: Disk, records: seq<AcsRecord>, n: nat, item: HexKey, t: Told)
    requires Tells(ctx, d, item, t) && Silent(ctx, Opened(d), records, item)
    ensures EventsAbout(Prefix(Out(ctx, d, records).events, n), item)
         == if Reached(ctx, d, records, n, item, t) then CorrectionOf(ctx.keys, item, t.hold, OutcomeOver(ctx, t, records)) else []
  {
    hide IsHexKey, IsDestination, IsLineText, HoldGet, TransformChunk, NewOutcome, EventKey, EventsAbout, Combine, Outcome, Silent,
      RowsTell;
    AboutChunk(ctx, Opened(d), records, item, t.hold);
    var events, outcome := Out(ctx, d, records).events, OutcomeOver(ctx, t, records);
    var p := Prefix(events, n);
    assert events == p + events[|p|..];
    AboutConcat(p, events[|p|..], item);
    if Corrects(t, outcome) {
      AboutHas(p, item, CorrectionOf(ctx.keys, item, t.hold, outcome)[0]);
      var x, y := EventsAbout(p, item), EventsAbout(events[|p|..], item);
      assert |x + y| == 1;
      if x != [] { assert x == x + y; }
    }
  }

  lemma HoldsKept(c: Cache, d: Disk, item: HexKey)
    requires d.holds == CommitHolds(c).holds
    ensures HoldGet(Opened(d), item) == HoldGet(c, item)
  {
  }

  /** Any attempt, wherever it stops, does to what is stored of the item what `AfterStop` says. */
  lemma StopTells(ctx: Context, today: int, d: Disk, records: seq<AcsRecord>, stop: Stop, item: HexKey, t: Told)
    requires SoundKeys(ctx.keys) && Tells(ctx, d, item, t) && Silent(ctx, Opened(d), records, item)
    ensures Tells(ctx, Stopped(ctx, today, d, records, stop), item, AfterStop(ctx, d, records, stop, item, t))
  {
    hide IsHexKey, IsDestination, IsLineText, HoldGet, TransformChunk, NewOutcome, EventKey, EventsAbout, Combine, ProfileOutcome,
      Lookup, Silent, RowsTell, SoundKeys, InsertAll, AllKeyed, Deleted, Replaced, Upserts;
    var out := Out(ctx, d, records);
    var outcome := OutcomeOver(ctx, t, records);
    AboutChunk(ctx, Opened(d), records, item, t.hold);
    ChunkKeyed(ctx, Opened(d), records);
    match stop {
      case AfterEvents(n) =>
        PrefixAbout(ctx, d, records, n, item, t);
        KeyedPrefix(ctx.keys, out.events, n);
        EventsTell(ctx.keys, d.rows, Prefix(out.events, n), item, t, outcome, Reached(ctx, d, records, n, item, t));
      case AfterHolds =>
        AllEventsTell(ctx, d, records, item, t);
        HoldsKept(out.cache, Stopped(ctx, today, d, records, stop), item);
        OutcomeOfTable(ctx, Stopped(ctx, today, d, records, stop), d, t.hold.patron);
      case AfterPatrons =>
        AllEventsTell(ctx, d, records, item, t);
        HoldsKept(out.cache, Stopped(ctx, today, d, records, stop), item);
        CommitKeepsAnswers(out.cache, today);
        Committed(out.cache, today);
        assert Opened(Stopped(ctx, today, d, records, stop)) == Commit(out.cache, today);
        OutcomeAside(ctx.keys, InsertAll(d.rows, out.events), item, Ledgered(t, outcome), outcome);
    }
  }

  lemma OutcomeAside(keys: Keys, rows: seq<AcsEvent>, item: HexKey, t: Told, outcome: Flags)
    requires RowsTell(keys, rows, item, t)
    ensures RowsTell(keys, rows, item, t.(outcome := outcome))
  {
  }

  lemma OutcomeOfTable(ctx: Context, d: Disk, e: Disk, pk: string)
    requires d.patrons == e.patrons
    ensures Outcome(ctx, Opened(d), pk) == Outcome(ctx, Opened(e), pk)
  {
  }

  /** The rows after all of the attempt's events, against the ledger row it then commits. */
  lemma AllEventsTell(ctx: Context, d: Disk, records: seq<AcsRecord>, item: HexKey, t: Told)
    requires SoundKeys(ctx.keys) && Tells(ctx, d, item, t) && Silent(ctx, Opened(d), records, item)
    ensures RowsTell(ctx.keys, InsertAll(d.rows, Out(ctx, d, records).events), item, Ledgered(t, OutcomeOver(ctx, t, records)))
  {
    hide IsHexKey, IsDestination, IsLineText, HoldGet, TransformChunk, NewOutcome, EventKey, EventsAbout, Combine, Outcome, Silent,
      RowsTell, SoundKeys, InsertAll, AllKeyed;
    var outcome := OutcomeOver(ctx, t, records);
    AboutChunk(ctx, Opened(d), records, item, t.hold);
    ChunkKeyed(ctx, Opened(d), records);
    var sent := Corrects(t, outcome);
    EventsTell(ctx.keys, d.rows, Out(ctx, d, records).events, item, t, outcome, sent);
    if sent { NextRevisionTells(ctx.keys, InsertAll(d.rows, Out(ctx, d, records).events), item, t, outcome); }
  }

  lemma NextRevisionTells(keys: Keys, rows: seq<AcsEvent>, item: HexKey, t: Told, outcome: Flags)
    requires RowsTell(keys, rows, item, Sent(t, outcome)) && Corrects(t, outcome)
    ensures RowsTell(keys, rows, item, Ledgered(t, outcome))
  {
    hide IsHexKey, IsDestination, IsLineText, EventKey, HasKey, Server.Latest, Combine;
    var h := CorrectedHold(t.hold, outcome);
    forall f: Flags, n: nat | n > h.revision ensures !HasKey(rows, EventKey(keys, Said(item, h, f), n)) {
      assert Said(item, h, f) == Said(item, t.hold, f);
    }
  }


  // ----- any failed attempts, then one that finishes -----

  /** An attempt that fails: the records it read, its clock and day, and where it stopped. */
  datatype Try = Try(records: seq<AcsRecord>, now: int, today: int, stop: Stop)

  ghost function DiskAfter(ctx: Context, disk: Disk, tries: seq<Try>): Disk {
    if tries == [] then disk
    else
      var last := tries[|tries| - 1];
      Stopped(ctx.(now := last.now), last.today, DiskAfter(ctx, disk, tries[..|tries| - 1]), last.records, last.stop)
  }

  ghost function ToldAfter(ctx: Context, disk: Disk, tries: seq<Try>, item: HexKey, t: Told): Told {
    if tries == [] then t
    else
      var init, last := tries[..|tries| - 1], tries[|tries| - 1];
      AfterStop(ctx.(now := last.now), DiskAfter(ctx, disk, init), last.records, last.stop, item, ToldAfter(ctx, disk, init, item, t))
  }

  /** No attempt turns a record into an event about the item. */
  ghost predicate AllSilent(ctx: Context, disk: Disk, tries: seq<Try>, item: HexKey) {
    tries == []
    || (var init, last := tries[..|tries| - 1], tries[|tries| - 1];
        AllSilent(ctx, disk, init, item)
        && Silent(ctx.(now := last.now), Opened(DiskAfter(ctx, disk, init)), last.records, item))
  }

  lemma TellsAnyTime(ctx: Context, now: int, d: Disk, item: HexKey, t: Told)
    ensures Tells(ctx.(now := now), d, item, t) <==> Tells(ctx, d, item, t)
  {
    assert Outcome(ctx.(now := now), Opened(d), t.hold.patron) == Outcome(ctx, Opened(d), t.hold.patron);
  }

  lemma {:induction false} TriesTell(ctx: Context, disk: Disk, tries: seq<Try>, item: HexKey, t: Told)
    requires SoundKeys(ctx.keys) && Tells(ctx, disk, item, t) && AllSilent(ctx, disk, tries, item)
    ensures Tells(ctx, DiskAfter(ctx, disk, tries), item, ToldAfter(ctx, disk, tries, item, t))
  {
    hide Tells, Stopped, AfterStop, Silent, SoundKeys;
    if tries != [] {
      var init, last := tries[..|tries| - 1], tries[|tries| - 1];
      var d, told := DiskAfter(ctx, disk, init), ToldAfter(ctx, disk, init, item, t);
      TriesTell(ctx, disk, init, item, t);
      TellsAnyTime(ctx, last.now, d, item, told);
      StopTells(ctx.(now := last.now), last.today, d, last.records, last.stop, item, told);
      TellsAnyTime(ctx, last.now, DiskAfter(ctx, disk, tries), item, ToldAfter(ctx, disk, tries, item, t));
    }
  }

  /** The flags that the item has under the profile its patron has after the last attempt. */
  function RightFlags(ctx: Context, t: Told, records: seq<AcsRecord>): Flags {
    Combine(t.hold.own, OutcomeOver(ctx, t, records))
  }

  /** What an attempt that finishes leaves a reader, from anything stored before: the flags of the patron's profile,
      exactly if the reader has them already, or the profile is a change both of the stored outcome and of the
      ledger's flags and the server does not hold these flags under the next revision. */
  predicate EndsRight(ctx: Context, t: Told, records: seq<AcsRecord>) {
    var g := RightFlags(ctx, t, records);
    t.seen == g || (OutcomeOver(ctx, t, records) != t.outcome && g != t.hold.flags && g !in t.pending)
  }

  /** Any attempts fail, each at its own time, over its own records, stopping anywhere; then one finishes. The reader
      is right about the item exactly as `EndsRight` says of what the failed attempts left. */
  lemma GrownRetryExactly(ctx: Context, disk: Disk, tries: seq<Try>, now: int, today: int, records: seq<AcsRecord>, end: int,
                          item: HexKey, t: Told)
    requires SoundKeys(ctx.keys) && Tells(ctx, disk, item, t) && AllSilent(ctx, disk, tries, item)
    requires Silent(ctx.(now := now), Opened(DiskAfter(ctx, disk, tries)), records, item)
    ensures
      var d, told := DiskAfter(ctx, disk, tries), ToldAfter(ctx, disk, tries, item, t);
      var done := Finished(ctx.(now := now), today, d, records, end);
      Tells(ctx, d, item, told)
      && Tells(ctx, done, item, AfterStop(ctx, d, records, AfterPatrons, item, told))
      && (Server.Latest(done.rows, item) == Some(Said(item, told.hold, RightFlags(ctx, told, records)))
          <==> EndsRight(ctx, told, records))
  {
    hide IsHexKey, IsDestination, IsLineText, Stopped, Silent, SoundKeys, HasKey, EventKey, NewOutcome, Combine, HoldGet, Outcome,
      Server.Latest, DiskAfter, ToldAfter, AllSilent;
    TriesTell(ctx, disk, tries, item, t);
    var d, told := DiskAfter(ctx, disk, tries), ToldAfter(ctx, disk, tries, item, t);
    var late := ctx.(now := now);
    TellsAnyTime(ctx, now, d, item, told);
    StopTells(late, today, d, records, AfterPatrons, item, told);
    NewOutcomeAnyTime(ctx, now, told.outcome, records, told.hold.patron);
    var done := Finished(late, today, d, records, end);
    var after := AfterStop(ctx, d, records, AfterPatrons, item, told);
    FinishedTells(late, today, d, records, end, item, after);
    TellsAnyTime(ctx, now, done, item, after);
  }

  lemma NewOutcomeAnyTime(ctx: Context, now: int, stored: Flags, records: seq<AcsRecord>, pk: string)
    ensures NewOutcome(ctx.(now := now), stored, records, pk) == NewOutcome(ctx, stored, records, pk)
  {
  }

  lemma FinishedTells(ctx: Context, today: int, d: Disk, records: seq<AcsRecord>, end: int, item: HexKey, t: Told)
    requires Tells(ctx, Stopped(ctx, today, d, records, AfterPatrons), item, t)
    ensures Tells(ctx, Finished(ctx, today, d, records, end), item, t)
  {
    hide TransformChunk, RowsTell;
    assert Opened(Finished(ctx, today, d, records, end)) == Opened(Stopped(ctx, today, d, records, AfterPatrons));
  }

  // ----- failures before anything is committed -----

  predicate OnlyEvents(tries: seq<Try>) {
    forall k :: 0 <= k < |tries| ==> tries[k].stop.AfterEvents?
  }

  lemma {:induction false} PendingOnly(ctx: Context, disk: Disk, tries: seq<Try>, item: HexKey, t: Told)
    requires OnlyEvents(tries) && t.pending == [] && t.seen == t.hold.flags
    ensures
      var told := ToldAfter(ctx, disk, tries, item, t);
      var s := told.pending;
      told.hold == t.hold && told.outcome == t.outcome && t.hold.flags !in s
      && told.seen == if s == [] then t.hold.flags else s[|s| - 1]
  {
    hide IsHexKey, IsDestination, IsLineText, Reached, NewOutcome, Combine, DiskAfter;
    if tries != [] {
      var init := tries[..|tries| - 1];
      assert forall k :: 0 <= k < |init| ==> init[k] == tries[k];
      PendingOnly(ctx, disk, init, item, t);
    }
  }

  /** Runs that all fail while delivering, over a growing log: with s the flags of the corrections the server then
      holds, in the order it stored them, the run that gets through leaves the reader right exactly if there are
      none, or the last of them are the right flags, or the right flags are new to the server and to the ledger. */
  lemma SeveralFailuresExactly(ctx: Context, disk: Disk, tries: seq<Try>, now: int, today: int, records: seq<AcsRecord>, end: int,
                               item: HexKey, w: Option<AcsRecord>, h: LedgerHold)
    requires SoundKeys(ctx.keys) && AllKeyed(ctx.keys, disk.rows) && HoldGet(Opened(disk), item) == Some(h)
    requires ItemInv(ctx.keys, disk.rows, item, w, Some(h), Outcome(ctx, Opened(disk), h.patron)) && h.time == w.value.when
    requires OnlyEvents(tries) && AllSilent(ctx, disk, tries, item)
    requires Silent(ctx.(now := now), Opened(DiskAfter(ctx, disk, tries)), records, item)
    ensures
      var stored := Outcome(ctx, Opened(disk), h.patron);
      var d := DiskAfter(ctx, disk, tries);
      var done := Finished(ctx.(now := now), today, d, records, end);
      var s := ToldAfter(ctx, disk, tries, item, Told(h, stored, [], h.flags)).pending;
      var g := Combine(h.own, NewOutcome(ctx, stored, records, h.patron));
      (forall f :: f in s <==> HasKey(d.rows, EventKey(ctx.keys, Said(item, h, f), h.revision + 1)))
      && (Server.Latest(done.rows, item) == Some(Said(item, h, g))
          <==> s == [] || s[|s| - 1] == g || (g != h.flags && g !in s))
  {
    hide IsHexKey, IsDestination, IsLineText, Stopped, Silent, SoundKeys, HasKey, EventKey, NewOutcome, Combine, HoldGet, Outcome,
      Server.Latest, DiskAfter, ToldAfter, AllSilent, ItemInv, AllKeyed, AfterStop;
    CleanTells(ctx, disk, item, w, h);
    var t := Told(h, Outcome(ctx, Opened(disk), h.patron), [], h.flags);
    PendingOnly(ctx, disk, tries, item, t);
    GrownRetryExactly(ctx, disk, tries, now, today, records, end, item, t);
  }

  // ----- failures after a transaction -----

  /** A run that dies between the ledger's transaction and the patrons': the next one that finishes leaves the
      reader right exactly if both runs give the hold the same flags, or the profile it reads is a change of the
      one stored. If the profile is back to the stored one, no correction is sent, and the ledger and the reader
      keep the flags of the run that died. */
  lemma LedgerStopExactly(ctx: Context, disk: Disk, first: Try, now: int, today: int, records: seq<AcsRecord>, end: int,
                          item: HexKey, w: Option<AcsRecord>, h: LedgerHold)
    requires SoundKeys(ctx.keys) && AllKeyed(ctx.keys, disk.rows) && HoldGet(Opened(disk), item) == Some(h)
    requires ItemInv(ctx.keys, disk.rows, item, w, Some(h), Outcome(ctx, Opened(disk), h.patron)) && h.time == w.value.when
    requires first.stop == AfterHolds && AllSilent(ctx, disk, [first], item)
    requires Silent(ctx.(now := now), Opened(DiskAfter(ctx, disk, [first])), records, item)
    ensures
      var stored := Outcome(ctx, Opened(disk), h.patron);
      var done := Finished(ctx.(now := now), today, DiskAfter(ctx, disk, [first]), records, end);
      var f := Combine(h.own, NewOutcome(ctx, stored, first.records, h.patron));
      var outcome := NewOutcome(ctx, stored, records, h.patron);
      var g := Combine(h.own, outcome);
      var right := f == g || outcome != stored;
      (Server.Latest(done.rows, item) == Some(Said(item, h, g)) <==> right)
      && Server.Latest(done.rows, item) == Some(Said(item, h, if right then g else f))
      && item in done.holds && done.holds[item].flags == (if right then g else f)
  {
    hide IsHexKey, IsDestination, IsLineText, Stopped, Silent, SoundKeys, HasKey, EventKey, NewOutcome, Combine, Outcome,
      Server.Latest, DiskAfter, AllSilent, ItemInv, AllKeyed;
    CleanTells(ctx, disk, item, w, h);
    var t := Told(h, Outcome(ctx, Opened(disk), h.patron), [], h.flags);
    OneTry(ctx, disk, first, item, t);
    GrownRetryExactly(ctx, disk, [first], now, today, records, end, item, t);
    NewOutcomeAnyTime(ctx, first.now, t.outcome, first.records, h.patron);
  }

  lemma OneTry(ctx: Context, disk: Disk, first: Try, item: HexKey, t: Told)
    ensures ToldAfter(ctx, disk, [first], item, t) == AfterStop(ctx.(now := first.now), disk, first.records, first.stop, item, t)
    ensures DiskAfter(ctx, disk, [first]) == Stopped(ctx.(now := first.now), first.today, disk, first.records, first.stop)
  {
    assert [first][..0] == [];
  }

  /** A run that dies after both transactions costs nothing: the next one that finishes leaves the reader right. */
  lemma PatronStopIsHarmless(ctx: Context, disk: Disk, first: Try, now: int, today: int, records: seq<AcsRecord>, end: int,
                             item: HexKey, w: Option<AcsRecord>, h: LedgerHold)
    requires SoundKeys(ctx.keys) && AllKeyed(ctx.keys, disk.rows) && HoldGet(Opened(disk), item) == Some(h)
    requires ItemInv(ctx.keys, disk.rows, item, w, Some(h), Outcome(ctx, Opened(disk), h.patron)) && h.time == w.value.when
    requires first.stop == AfterPatrons && AllSilent(ctx, disk, [first], item)
    requires Silent(ctx.(now := now), Opened(DiskAfter(ctx, disk, [first])), records, item)
    ensures
      var stored := NewOutcome(ctx, Outcome(ctx, Opened(disk), h.patron), first.records, h.patron);
      var done := Finished(ctx.(now := now), today, DiskAfter(ctx, disk, [first]), records, end);
      var g := Combine(h.own, NewOutcome(ctx, stored, records, h.patron));
      Server.Latest(done.rows, item) == Some(Said(item, h, g)) && item in done.holds && done.holds[item].flags == g
  {
    hide IsHexKey, IsDestination, IsLineText, Stopped, Silent, SoundKeys, HasKey, EventKey, NewOutcome, Combine, Outcome,
      Server.Latest, DiskAfter, AllSilent, ItemInv, AllKeyed;
    CleanTells(ctx, disk, item, w, h);
    var t := Told(h, Outcome(ctx, Opened(disk), h.patron), [], h.flags);
    OneTry(ctx, disk, first, item, t);
    GrownRetryExactly(ctx, disk, [first], now, today, records, end, item, t);
    NewOutcomeAnyTime(ctx, first.now, t.outcome, first.records, h.patron);
  }

  // ----- logs whose reader ends wrong -----

  const SENT_HOLD := HoldRecordOf(EARLIEST, "X", "P")
  const ILL := ProfileRecord(EARLIEST + 10, "P", true)
  const WELL := ProfileRecord(EARLIEST + 20, "P", false)
  const BRANCH := ProfileRecord(EARLIEST + 20, "P", false).(profile := PatronInfo(Some("B"), false, false))
  const ILL_AGAIN := ProfileRecord(EARLIEST + 30, "P", true)

  const ILL_FLAGS := Flags(true, false, false)
  const BRANCH_FLAGS := Flags(false, true, false)

  /** The account name "B" is a branch's. */
  const BRANCH_RULES := Rules({"B"}, {})

  /** The world after the hold alone was read. */
  ghost function AfterHold(keys: Keys, rules: Rules): World {
    Run(keys, rules, [Chunk(EARLIEST, 0, [SENT_HOLD])])
  }

  lemma HoldItems(keys: Keys)
    requires keys.patron("X") != keys.patron("P")
    ensures Items(keys, [Chunk(EARLIEST, 0, [SENT_HOLD])]) == [SENT_HOLD]
  {
    hide IsHexKey, IsDestination, IsLineText;
    var chunks := [Chunk(EARLIEST, 0, [SENT_HOLD])];
    assert chunks[..0] == [] && Log([]) + [SENT_HOLD] == [SENT_HOLD];
    assert !Known(keys, [SENT_HOLD], keys.patron("X"));
    assert [SENT_HOLD][..0] == [];
    assert CountedOf(keys, EARLIEST, [SENT_HOLD], [SENT_HOLD]) == [SENT_HOLD];
    assert Items(keys, []) + [SENT_HOLD] == [SENT_HOLD];
  }

  /** The ledger row and the server row that the hold left. */
  lemma HoldLeft(keys: Keys, rules: Rules) returns (h: LedgerHold)
    requires SoundKeys(keys) && keys.patron("X") != keys.patron("P")
    ensures
      var disk := DiskOf(AfterHold(keys, rules));
      var ctx := Context(keys, rules, EARLIEST);
      HoldGet(Opened(disk), keys.item("X")) == Some(h) && AllKeyed(keys, disk.rows)
      && ItemInv(keys, disk.rows, keys.item("X"), Some(SENT_HOLD), Some(h), Outcome(ctx, Opened(disk), h.patron))
      && Matches(keys, h, SENT_HOLD) && h.flags == PLAIN && Outcome(ctx, Opened(disk), h.patron) == PLAIN
  {
    hide IsHexKey, IsDestination, IsLineText, EventKey, Run, Server.Latest, Items, RevisionsReached, TransformChunk;
    var ctx := Context(keys, rules, EARLIEST);
    var chunks := [Chunk(EARLIEST, 0, [SENT_HOLD])];
    var item := keys.item("X");
    HoldItems(keys);
    assert [SENT_HOLD][..0] == [] && chunks[..0] == [];
    assert Winner(keys, [SENT_HOLD], item) == Some(SENT_HOLD);
    assert Orderly(keys, [SENT_HOLD]);
    RunKeeps(keys, rules, EARLIEST, chunks);
    var world := AfterHold(keys, rules);
    assert ItemHolds(ctx, world.rows, world.cache, [SENT_HOLD], item);
    h := HoldGet(world.cache, item).value;
    assert LatestProfile(keys, [SENT_HOLD], h.patron) == None;
    assert LastRead(keys, chunks, h.patron) == None;
    assert Outcome(ctx, world.cache, h.patron) == PLAIN;
    RunCommitted(keys, rules, chunks);
  }

  /** A run ends with a committed cache. */
  lemma RunCommitted(keys: Keys, rules: Rules, chunks: seq<Chunk>)
    ensures Run(keys, rules, chunks).cache == Opened(DiskOf(Run(keys, rules, chunks)))
  {
    hide TransformChunk;
    if chunks != [] {
      var init, last := chunks[..|chunks| - 1], chunks[|chunks| - 1];
      Committed(TransformChunk(Context(keys, rules, last.now), Run(keys, rules, init).cache, last.records).cache, last.today);
    }
  }

  /** An attempt that stores all its events and then fails. */
  ghost function AllStored(ctx: Context, d: Disk, records: seq<AcsRecord>): Try {
    Try(records, ctx.now, 0, AfterEvents(|Out(ctx, d, records).events|))
  }

  lemma AllReached(ctx: Context, d: Disk, records: seq<AcsRecord>, item: HexKey, t: Told)
    requires Tells(ctx, d, item, t) && Silent(ctx, Opened(d), records, item) && Corrects(t, OutcomeOver(ctx, t, records))
    ensures Reached(ctx, d, records, |Out(ctx, d, records).events|, item, t)
  {
    hide IsHexKey, IsDestination, IsLineText, HoldGet, TransformChunk, NewOutcome, EventKey, EventsAbout, Combine, Outcome, Silent,
      RowsTell;
    var events := Out(ctx, d, records).events;
    AboutChunk(ctx, Opened(d), records, item, t.hold);
    AboutHas(events, item, CorrectionOf(ctx.keys, item, t.hold, OutcomeOver(ctx, t, records))[0]);
    assert Prefix(events, |events|) == events;
  }

  /** Chunks of profiles alone are silent about every item. */
  lemma ProfilesSilent(ctx: Context, c: Cache, records: seq<AcsRecord>, item: HexKey)
    requires forall r :: r in records ==> r.code != Item10
    ensures Silent(ctx, c, records, item)
  {
    hide AfterSightings;
    NoItemsSilent(ctx, AfterSightings(ctx, c, records).cache, records);
  }

  /** Where those attempts start. */
  lemma HoldTells(keys: Keys, rules: Rules) returns (t: Told)
    requires SoundKeys(keys) && keys.patron("X") != keys.patron("P")
    ensures Tells(Context(keys, rules, EARLIEST), DiskOf(AfterHold(keys, rules)), keys.item("X"), t)
    ensures t.outcome == PLAIN && t.pending == [] && t.seen == PLAIN && t.hold.flags == PLAIN
    ensures Matches(keys, t.hold, SENT_HOLD)
  {
    hide IsHexKey, IsDestination, IsLineText, EventKey, AfterHold, Server.Latest, SoundKeys, Tells, ItemInv, AllKeyed, HoldGet, Outcome;
    var ctx := Context(keys, rules, EARLIEST);
    var h := HoldLeft(keys, rules);
    CleanTells(ctx, DiskOf(AfterHold(keys, rules)), keys.item("X"), Some(SENT_HOLD), h);
    t := Told(h, Outcome(ctx, Opened(DiskOf(AfterHold(keys, rules))), h.patron), [], h.flags);
  }

  lemma ProfilesOf(keys: Keys)
    ensures
      var pk := keys.patron("P");
      LatestProfile(keys, [ILL], pk) == Some(ILL) && LatestProfile(keys, [ILL, WELL], pk) == Some(WELL)
      && LatestProfile(keys, [ILL, BRANCH], pk) == Some(BRANCH)
      && LatestProfile(keys, [ILL, BRANCH, ILL_AGAIN], pk) == Some(ILL_AGAIN)
      && LatestProfile(keys, [SENT_HOLD, ILL, WELL], pk) == Some(WELL)
      && LatestProfile(keys, [SENT_HOLD, ILL, BRANCH, ILL_AGAIN], pk) == Some(ILL_AGAIN)
  {
    var pk := keys.patron("P");
    assert [ILL][..0] == [] && [ILL, WELL][..1] == [ILL] && [ILL, BRANCH][..1] == [ILL];
    assert [ILL, BRANCH, ILL_AGAIN][..2] == [ILL, BRANCH] && [SENT_HOLD][..0] == [];
    LatestConcat(keys, [SENT_HOLD], [ILL, WELL], pk);
    LatestConcat(keys, [SENT_HOLD], [ILL, BRANCH, ILL_AGAIN], pk);
    assert [SENT_HOLD] + [ILL, WELL] == [SENT_HOLD, ILL, WELL];
    assert [SENT_HOLD] + [ILL, BRANCH, ILL_AGAIN] == [SENT_HOLD, ILL, BRANCH, ILL_AGAIN];
  }

  lemma OutcomesOf(rules: Rules)
    ensures ProfileOutcome(Some(ILL.profile), rules) == ILL_FLAGS == ProfileOutcome(Some(ILL_AGAIN.profile), rules)
    ensures ProfileOutcome(Some(WELL.profile), rules) == PLAIN
    ensures ProfileOutcome(Some(BRANCH.profile), BRANCH_RULES) == BRANCH_FLAGS
  {
  }

  /** The whole log's answer for that hold. */
  lemma HoldInBatch(keys: Keys, rules: Rules, log: seq<AcsRecord>)
    ensures BatchView(keys, rules, [SENT_HOLD], log, keys.item("X")) == Some(HoldContent(EARLIEST, keys.item("X"), UNKNOWN,
              ProfileOutcome(ProfileOf(LatestProfile(keys, log, keys.patron("P"))), rules)))
  {
    hide IsHexKey, IsDestination, IsLineText;
    assert [SENT_HOLD][..0] == [];
    assert Winner(keys, [SENT_HOLD], keys.item("X")) == Some(SENT_HOLD);
  }

  /** A hold was sent; then an attempt read the patron's profile, which makes the hold ill, and stored its events
      but failed; the retry also read the profile that takes this back. The whole log says the hold is plain, and
      so does the ledger, but a reader is left with the ill one. */
  lemma GrownRetryMisleads(keys: Keys, rules: Rules)
    requires SoundKeys(keys) && keys.patron("X") != keys.patron("P")
    ensures
      var ctx, disk, item := Context(keys, rules, EARLIEST), DiskOf(AfterHold(keys, rules)), keys.item("X");
      var tries := [AllStored(ctx, disk, [ILL])];
      var done := Finished(ctx, 0, DiskAfter(ctx, disk, tries), [ILL, WELL], 0);
      item in done.holds && done.holds[item].flags == PLAIN
      && Server.Latest(done.rows, item) == Some(HoldContent(EARLIEST, item, UNKNOWN, ILL_FLAGS))
      && BatchView(keys, rules, [SENT_HOLD], [SENT_HOLD, ILL, WELL], item) == Some(HoldContent(EARLIEST, item, UNKNOWN, PLAIN))
  {
    hide IsHexKey, IsDestination, IsLineText, EventKey, AfterHold, Server.Latest, TransformChunk, SoundKeys, LatestProfile, Outcome,
      ProfileOutcome, Silent, BatchView, HasKey, Reached;
    var ctx, disk, item := Context(keys, rules, EARLIEST), DiskOf(AfterHold(keys, rules)), keys.item("X");
    assert ctx.(now := EARLIEST) == ctx;
    var t := HoldTells(keys, rules);
    ProfilesOf(keys);
    OutcomesOf(rules);
    HoldInBatch(keys, rules, [SENT_HOLD, ILL, WELL]);
    var first := AllStored(ctx, disk, [ILL]);
    OneTry(ctx, disk, first, item, t);
    ProfilesSilent(ctx, Opened(disk), [ILL], item);
    AllReached(ctx, disk, [ILL], item, t);
    assert AllSilent(ctx, disk, [first], item) by { assert [first][..0] == []; }
    ProfilesSilent(ctx, Opened(DiskAfter(ctx, disk, [first])), [ILL, WELL], item);
    GrownRetryExactly(ctx, disk, [first], EARLIEST, 0, [ILL, WELL], 0, item, t);
  }

  /** Two failed attempts over a growing log: the profile makes the hold ill, then a branch's. The run that gets through
      reads that it is ill again. Its flags are not those the ledger had, yet its event has the key of the first
      attempt's, so a reader is left with the second's. */
  lemma ThirdAttemptMisleads(keys: Keys)
    requires SoundKeys(keys) && keys.patron("X") != keys.patron("P")
    ensures
      var ctx, disk, item := Context(keys, BRANCH_RULES, EARLIEST), DiskOf(AfterHold(keys, BRANCH_RULES)), keys.item("X");
      var first := AllStored(ctx, disk, [ILL]);
      var second := AllStored(ctx, DiskAfter(ctx, disk, [first]), [ILL, BRANCH]);
      var done := Finished(ctx, 0, DiskAfter(ctx, disk, [first, second]), [ILL, BRANCH, ILL_AGAIN], 0);
      item in done.holds && done.holds[item].flags == ILL_FLAGS
      && Server.Latest(done.rows, item) == Some(HoldContent(EARLIEST, item, UNKNOWN, BRANCH_FLAGS))
      && BatchView(keys, BRANCH_RULES, [SENT_HOLD], [SENT_HOLD, ILL, BRANCH, ILL_AGAIN], item)
         == Some(HoldContent(EARLIEST, item, UNKNOWN, ILL_FLAGS))
  {
    hide IsHexKey, IsDestination, IsLineText, EventKey, AfterHold, Server.Latest, TransformChunk, SoundKeys, LatestProfile, Outcome,
      ProfileOutcome, Silent, BatchView, HasKey, Reached, Stopped;
    var ctx, disk, item := Context(keys, BRANCH_RULES, EARLIEST), DiskOf(AfterHold(keys, BRANCH_RULES)), keys.item("X");
    assert ctx.(now := EARLIEST) == ctx;
    var t := HoldTells(keys, BRANCH_RULES);
    ProfilesOf(keys);
    OutcomesOf(BRANCH_RULES);
    HoldInBatch(keys, BRANCH_RULES, [SENT_HOLD, ILL, BRANCH, ILL_AGAIN]);
    var first := AllStored(ctx, disk, [ILL]);
    var d := DiskAfter(ctx, disk, [first]);
    OneTry(ctx, disk, first, item, t);
    ProfilesSilent(ctx, Opened(disk), [ILL], item);
    AllReached(ctx, disk, [ILL], item, t);
    assert AllSilent(ctx, disk, [first], item) by { assert [first][..0] == []; }
    TriesTell(ctx, disk, [first], item, t);
    var told := ToldAfter(ctx, disk, [first], item, t);
    var second := AllStored(ctx, d, [ILL, BRANCH]);
    ProfilesSilent(ctx, Opened(d), [ILL, BRANCH], item);
    AllReached(ctx, d, [ILL, BRANCH], item, told);
    assert [first, second][..1] == [first];
    assert ToldAfter(ctx, disk, [first, second], item, t) == Sent(told, BRANCH_FLAGS);
    ProfilesSilent(ctx, Opened(DiskAfter(ctx, disk, [first, second])), [ILL, BRANCH, ILL_AGAIN], item);
    GrownRetryExactly(ctx, disk, [first, second], EARLIEST, 0, [ILL, BRANCH, ILL_AGAIN], 0, item, t);
  }

  /** A run read the profile that makes the hold ill and died between its two transactions; the next one also reads the
      profile that takes this back. That one is like the stored one, so nothing is corrected: the stored profile and
      the whole log say plain, the ledger and the reader ill. */
  lemma LedgerStopMisleads(keys: Keys, rules: Rules)
    requires SoundKeys(keys) && keys.patron("X") != keys.patron("P")
    ensures
      var ctx, disk, item := Context(keys, rules, EARLIEST), DiskOf(AfterHold(keys, rules)), keys.item("X");
      var tries := [Try([ILL], EARLIEST, 0, AfterHolds)];
      var done := Finished(ctx, 0, DiskAfter(ctx, disk, tries), [ILL, WELL], 0);
      item in done.holds && done.holds[item].flags == ILL_FLAGS
      && Outcome(ctx, Opened(done), keys.patron("P")) == PLAIN
      && Server.Latest(done.rows, item) == Some(HoldContent(EARLIEST, item, UNKNOWN, ILL_FLAGS))
      && BatchView(keys, rules, [SENT_HOLD], [SENT_HOLD, ILL, WELL], item) == Some(HoldContent(EARLIEST, item, UNKNOWN, PLAIN))
  {
    hide IsHexKey, IsDestination, IsLineText, EventKey, AfterHold, Server.Latest, TransformChunk, SoundKeys, LatestProfile, Outcome,
      ProfileOutcome, Silent, BatchView, HasKey, Reached;
    var ctx, disk, item := Context(keys, rules, EARLIEST), DiskOf(AfterHold(keys, rules)), keys.item("X");
    assert ctx.(now := EARLIEST) == ctx;
    var t := HoldTells(keys, rules);
    ProfilesOf(keys);
    OutcomesOf(rules);
    HoldInBatch(keys, rules, [SENT_HOLD, ILL, WELL]);
    var first := Try([ILL], EARLIEST, 0, AfterHolds);
    OneTry(ctx, disk, first, item, t);
    ProfilesSilent(ctx, Opened(disk), [ILL], item);
    assert AllSilent(ctx, disk, [first], item) by { assert [first][..0] == []; }
    ProfilesSilent(ctx, Opened(DiskAfter(ctx, disk, [first])), [ILL, WELL], item);
    GrownRetryExactly(ctx, disk, [first], EARLIEST, 0, [ILL, WELL], 0, item, t);
  }
}
