/** The quarantine of refused events (collector/v2_quarantine.py). */
module Quarantines {
  import opened Text

  datatype Kind = Checkins | Rejects | AcsItems

  datatype Reason = EventConflict | InvalidEvent

  /** A safe event as delivery and quarantine see it. */
  datatype SafeEvent = SafeEvent(kind: Kind, eventKey: string, time: int)

  datatype Entry = Entry(kind: Kind, eventKey: string, time: int, reason: Reason, day: int)

  datatype Bounds = Bounds(maxEntries: nat, retentionDays: nat)

  predicate SameEvent(a: Entry, b: Entry) {
    a.kind == b.kind && a.eventKey == b.eventKey
  }

  /** The event is in the quarantine and will not be sent. */
  predicate Skipped(entries: seq<Entry>, e: SafeEvent) {
    exists i :: 0 <= i < |entries| && entries[i].kind == e.kind && entries[i].eventKey == e.eventKey
  }

  predicate Listed(entries: seq<Entry>, e: Entry) {
    exists i :: 0 <= i < |entries| && SameEvent(entries[i], e)
  }

  /** The entries not older than the cutoff, in order. */
  function Fresh(entries: seq<Entry>, cutoff: int): seq<Entry> {
    if entries == [] then []
    else
      var earlier := Fresh(entries[..|entries| - 1], cutoff);
      if entries[|entries| - 1].day >= cutoff then earlier + [entries[|entries| - 1]] else earlier
  }

  function Newest(entries: seq<Entry>, max: nat): seq<Entry> {
    if |entries| > max then entries[|entries| - max..] else entries
  }

  function Pruned(entries: seq<Entry>, today: int, limits: Bounds): seq<Entry> {
    Newest(Fresh(entries, today - limits.retentionDays), limits.maxEntries)
  }

  /** What adding appends: the entries whose event is not listed yet, each once. */
  function Appended(entries: seq<Entry>, incoming: seq<Entry>): seq<Entry> {
    if incoming == [] then []
    else
      var earlier := Appended(entries, incoming[..|incoming| - 1]);
      if Listed(entries + earlier, incoming[|incoming| - 1]) then earlier else earlier + [incoming[|incoming| - 1]]
  }

  function Added(entries: seq<Entry>, incoming: seq<Entry>, today: int, limits: Bounds): seq<Entry> {
    Pruned(entries + Appended(entries, incoming), today, limits)
  }

  // ----- what adding and pruning leave, event by event -----

  /** What is appended is some of the incoming entries, in their order, none of whose events was listed. */
  lemma {:induction false} AppendedInOrder(entries: seq<Entry>, incoming: seq<Entry>) returns (at: seq<nat>)
    ensures |at| == |Appended(entries, incoming)|
    ensures forall k :: 0 <= k < |at| ==>
      at[k] < |incoming| && Appended(entries, incoming)[k] == incoming[at[k]] && !Listed(entries, incoming[at[k]])
    ensures forall j, k :: 0 <= j < k < |at| ==> at[j] < at[k]
  {
    at := [];
    if incoming != [] {
      var n := |incoming| - 1;
      at := AppendedInOrder(entries, incoming[..n]);
      var earlier := Appended(entries, incoming[..n]);
      if !Listed(entries + earlier, incoming[n]) {
        at := at + [n];
        if Listed(entries, incoming[n]) { ListedInMore(entries, earlier, incoming[n]); }
      }
    }
  }

  lemma ListedInMore(entries: seq<Entry>, more: seq<Entry>, e: Entry)
    ensures Listed(entries + more, e) <==> Listed(entries, e) || Listed(more, e)
  {
    var all := entries + more;
    if Listed(entries, e) {
      var i :| 0 <= i < |entries| && SameEvent(entries[i], e);
      assert SameEvent(all[i], e);
    }
    if Listed(more, e) {
      var i :| 0 <= i < |more| && SameEvent(more[i], e);
      assert SameEvent(all[|entries| + i], e);
    }
  }

  /** Every incoming event is listed in the lengthened list, by its own entry if it was not listed when its turn came. */
  lemma {:induction false} AppendedLists(entries: seq<Entry>, incoming: seq<Entry>, k: nat)
    requires k < |incoming|
    ensures Listed(entries + Appended(entries, incoming), incoming[k])
    ensures !Listed(entries + Appended(entries, incoming[..k]), incoming[k]) ==> incoming[k] in Appended(entries, incoming)
  {
    hide Listed;
    var n := |incoming| - 1;
    var earlier, all := Appended(entries, incoming[..n]), Appended(entries, incoming);
    if k < n {
      AppendedLists(entries, incoming[..n], k);
      assert incoming[..n][..k] == incoming[..k];
      ListedInMore(entries + earlier, all[|earlier|..], incoming[k]);
      assert (entries + earlier) + all[|earlier|..] == entries + all;
    } else if !Listed(entries + earlier, incoming[n]) {
      ItselfListed(entries + earlier, incoming[n]);
      assert (entries + earlier) + [incoming[n]] == entries + all;
    }
  }

  lemma ItselfListed(entries: seq<Entry>, e: Entry)
    ensures Listed(entries + [e], e)
  {
    assert SameEvent((entries + [e])[|entries|], e);
  }

  lemma {:induction false} FreshConcat(a: seq<Entry>, b: seq<Entry>, cutoff: int)
    ensures Fresh(a + b, cutoff) == Fresh(a, cutoff) + Fresh(b, cutoff)
  {
    if b == [] {
      assert a + b == a;
    } else {
      FreshConcat(a, b[..|b| - 1], cutoff);
      assert (a + b)[..|a + b| - 1] == a + b[..|b| - 1];
    }
  }

  lemma {:induction false} FreshIsListed(entries: seq<Entry>, cutoff: int, i: nat) returns (j: nat)
    requires i < |Fresh(entries, cutoff)|
    ensures j < |entries| && entries[j] == Fresh(entries, cutoff)[i] && entries[j].day >= cutoff
    ensures |Fresh(entries[..j], cutoff)| == i
  {
    var n := |entries| - 1;
    if i < |Fresh(entries[..n], cutoff)| {
      j := FreshIsListed(entries[..n], cutoff, i);
      assert entries[..n][..j] == entries[..j];
    } else {
      j := n;
    }
  }

  /** The entry is within retention, and fewer entries within retention than the cap come after it. */
  predicate Survives(all: seq<Entry>, j: nat, today: int, limits: Bounds)
    requires j < |all|
  {
    all[j].day >= today - limits.retentionDays && |Fresh(all[j + 1..], today - limits.retentionDays)| < limits.maxEntries
  }

  lemma SplitFresh(all: seq<Entry>, j: nat, cutoff: int)
    requires j < |all| && all[j].day >= cutoff
    ensures Fresh(all, cutoff) == Fresh(all[..j], cutoff) + [all[j]] + Fresh(all[j + 1..], cutoff)
  {
    FreshConcat(all[..j], [all[j]], cutoff);
    FreshConcat(all[..j] + [all[j]], all[j + 1..], cutoff);
    assert all[..j] + [all[j]] + all[j + 1..] == all;
    assert [all[j]][..0] == [];
  }

  /** After pruning an event is listed exactly if one of its entries survives. */
  lemma PrunedListsExactly(all: seq<Entry>, today: int, limits: Bounds, e: Entry)
    ensures Listed(Pruned(all, today, limits), e) <==>
      exists j :: 0 <= j < |all| && SameEvent(all[j], e) && Survives(all, j, today, limits)
  {
    hide Fresh;
    var cutoff := today - limits.retentionDays;
    var recent := Fresh(all, cutoff);
    var from := |recent| - |Pruned(all, today, limits)|;
    if Listed(Pruned(all, today, limits), e) {
      var i :| 0 <= i < |Pruned(all, today, limits)| && SameEvent(Pruned(all, today, limits)[i], e);
      var j := FreshIsListed(all, cutoff, from + i);
      SplitFresh(all, j, cutoff);
      assert SameEvent(all[j], e) && Survives(all, j, today, limits);
    }
    if exists j :: 0 <= j < |all| && SameEvent(all[j], e) && Survives(all, j, today, limits) {
      var j :| 0 <= j < |all| && SameEvent(all[j], e) && Survives(all, j, today, limits);
      SplitFresh(all, j, cutoff);
      var i := |Fresh(all[..j], cutoff)|;
      assert recent[i] == all[j];
      assert Pruned(all, today, limits)[i - from] == all[j];
    }
  }

  /** An added event is in the lengthened list, and after the add it is listed exactly if an entry of it there is
      within retention and fewer such entries than the cap come after that one. */
  lemma AddListsExactly(entries: seq<Entry>, incoming: seq<Entry>, today: int, limits: Bounds, k: nat)
    requires k < |incoming|
    ensures
      var all := entries + Appended(entries, incoming);
      Listed(all, incoming[k])
      && (Listed(Added(entries, incoming, today, limits), incoming[k]) <==>
            exists j :: 0 <= j < |all| && SameEvent(all[j], incoming[k]) && Survives(all, j, today, limits))
  {
    hide Fresh, Appended, Pruned, Listed;
    AppendedLists(entries, incoming, k);
    PrunedListsExactly(entries + Appended(entries, incoming), today, limits, incoming[k]);
  }

  /** The entries there and those that come are within retention, and not more than the cap. */
  predicate Room(entries: seq<Entry>, incoming: seq<Entry>, today: int, limits: Bounds) {
    |entries| + |incoming| <= limits.maxEntries
    && (forall i :: 0 <= i < |entries| ==> entries[i].day >= today - limits.retentionDays)
    && (forall i :: 0 <= i < |incoming| ==> incoming[i].day >= today - limits.retentionDays)
  }

  lemma {:induction false} AllFresh(entries: seq<Entry>, cutoff: int)
    requires forall i :: 0 <= i < |entries| ==> entries[i].day >= cutoff
    ensures Fresh(entries, cutoff) == entries
  {
    if entries != [] { AllFresh(entries[..|entries| - 1], cutoff); }
  }

  /** With room an add prunes nothing. */
  lemma RoomPrunesNothing(entries: seq<Entry>, incoming: seq<Entry>, today: int, limits: Bounds)
    requires Room(entries, incoming, today, limits)
    ensures Added(entries, incoming, today, limits) == entries + Appended(entries, incoming)
    ensures Room(Added(entries, incoming, today, limits), [], today, limits)
    ensures |Added(entries, incoming, today, limits)| <= |entries| + |incoming|
  {
    hide Fresh, Appended;
    var all := entries + Appended(entries, incoming);
    var at := AppendedInOrder(entries, incoming);
    AppendedShorter(entries, incoming);
    forall i | 0 <= i < |all| ensures all[i].day >= today - limits.retentionDays {
      if i >= |entries| { assert all[i] == incoming[at[i - |entries|]]; }
    }
    AllFresh(all, today - limits.retentionDays);
  }

  /** With room every incoming event is listed after an add. */
  lemma AddedLists(entries: seq<Entry>, incoming: seq<Entry>, today: int, limits: Bounds, k: nat)
    requires k < |incoming| && Room(entries, incoming, today, limits)
    ensures Listed(Added(entries, incoming, today, limits), incoming[k])
  {
    hide Appended, Pruned, Listed, Room;
    RoomPrunesNothing(entries, incoming, today, limits);
    AppendedLists(entries, incoming, k);
  }

  /** Nothing is listed that was not listed or appended. */
  lemma AddedFrom(entries: seq<Entry>, incoming: seq<Entry>, today: int, limits: Bounds, e: Entry)
    requires e in Added(entries, incoming, today, limits)
    ensures e in entries + Appended(entries, incoming)
    ensures e in entries || e in incoming
  {
    hide Fresh, Appended, Listed;
    var all := entries + Appended(entries, incoming);
    var cutoff := today - limits.retentionDays;
    assert e in Fresh(all, cutoff);
    var i :| 0 <= i < |Fresh(all, cutoff)| && Fresh(all, cutoff)[i] == e;
    var j := FreshIsListed(all, cutoff, i);
    var at := AppendedInOrder(entries, incoming);
    if j >= |entries| { assert e == incoming[at[j - |entries|]]; } else { assert e == entries[j]; }
  }

  predicate AllListed(entries: seq<Entry>, incoming: seq<Entry>) {
    forall k :: 0 <= k < |incoming| ==> Listed(entries, incoming[k])
  }

  predicate OnlyFrom(after: seq<Entry>, before: seq<Entry>, incoming: seq<Entry>) {
    forall e :: e in after ==> e in before || e in incoming
  }

  lemma ListedAt(all: seq<Entry>, e: Entry) returns (j: nat)
    requires Listed(all, e)
    ensures j < |all| && SameEvent(all[j], e)
  {
    j :| 0 <= j < |all| && SameEvent(all[j], e);
  }

  lemma {:induction false} AppendedShorter(entries: seq<Entry>, incoming: seq<Entry>)
    ensures |Appended(entries, incoming)| <= |incoming|
  {
    if incoming != [] { AppendedShorter(entries, incoming[..|incoming| - 1]); }
  }

  class Quarantine {
    var entries: seq<Entry>
    var file: seq<Entry>     // what is saved
    const limits: Bounds
    const today: int
    const readOnly: bool

    /** Opens the store over its file, pruned to today. */
    constructor (file: seq<Entry>, limits: Bounds, today: int, readOnly: bool)
      ensures entries == Pruned(file, today, limits) && this.file == file
      ensures this.limits == limits && this.today == today && this.readOnly == readOnly
    {
      this.file, this.limits, this.today, this.readOnly := file, limits, today, readOnly;
      entries := file;
      new;
      Prune();
    }

    method Prune()
      modifies this`entries
      ensures entries == Pruned(old(entries), today, limits)
    {
      var cutoff := today - limits.retentionDays;
      var kept := [];
      for i := 0 to |entries|
        invariant kept == Fresh(entries[..i], cutoff)
      {
        assert entries[..i + 1][..i] == entries[..i];
        if entries[i].day >= cutoff { kept := kept + [entries[i]]; }
      }
      assert entries[..|entries|] == entries;
      if |kept| > limits.maxEntries { kept := kept[|kept| - limits.maxEntries..]; }
      entries := kept;
    }

    method Contains(kind: Kind, eventKey: string) returns (found: bool)
      ensures found <==> exists i :: 0 <= i < |entries| && entries[i].kind == kind && entries[i].eventKey == eventKey
    {
      for i := 0 to |entries|
        invariant forall j :: 0 <= j < i ==> !(entries[j].kind == kind && entries[j].eventKey == eventKey)
      {
        if entries[i].kind == kind && entries[i].eventKey == eventKey { return true; }
      }
      return false;
    }

    method KeysFor(kind: Kind) returns (keys: set<string>)
      ensures forall key :: key in keys <==> exists i :: 0 <= i < |entries| && entries[i].kind == kind && entries[i].eventKey == key
    {
      keys := {};
      for i := 0 to |entries|
        invariant forall key :: key in keys <==> exists j :: 0 <= j < i && entries[j].kind == kind && entries[j].eventKey == key
      {
        if entries[i].kind == kind { keys := keys + {entries[i].eventKey}; }
      }
    }

    /** Appends what is not listed yet, prunes, saves. A read-only view ignores it. */
    method Add(incoming: seq<Entry>)
      modifies this`entries, this`file
      ensures readOnly ==> entries == old(entries) && file == old(file)
      ensures !readOnly ==> entries == Added(old(entries), incoming, today, limits) && file == entries
      ensures !readOnly && Room(old(entries), incoming, today, limits) ==> AllListed(entries, incoming)
      ensures !readOnly ==> OnlyFrom(entries, old(entries), incoming)
    {
      if readOnly { return; }
      ghost var before := entries;
      for i := 0 to |incoming|
        invariant entries == before + Appended(before, incoming[..i])
      {
        assert incoming[..i + 1][..i] == incoming[..i];
        var known := Contains(incoming[i].kind, incoming[i].eventKey);
        assert known <==> Listed(entries, incoming[i]) by {
          if Listed(entries, incoming[i]) {
            var j :| 0 <= j < |entries| && SameEvent(entries[j], incoming[i]);
          }
          if known {
            var j :| 0 <= j < |entries| && entries[j].kind == incoming[i].kind && entries[j].eventKey == incoming[i].eventKey;
            assert SameEvent(entries[j], incoming[i]);
          }
        }
        if !known { entries := entries + [incoming[i]]; }
      }
      assert incoming[..|incoming|] == incoming;
      Prune();
      file := entries;
      if Room(before, incoming, today, limits) {
        forall k | 0 <= k < |incoming| ensures Listed(entries, incoming[k]) { AddedLists(before, incoming, today, limits, k); }
      }
      forall e | e in entries ensures e in before || e in incoming { AddedFrom(before, incoming, today, limits, e); }
    }

    method PruneAndSave()
      modifies this`entries, this`file
      ensures entries == Pruned(old(entries), today, limits)
      ensures file == if readOnly then old(file) else entries
    {
      Prune();
      if !readOnly { file := entries; }
    }
  }

  // ----- over any history of adds and prunes -----

  predicate Dated(entries: seq<Entry>) {
    forall i, j :: 0 <= i < j < |entries| ==> entries[i].day <= entries[j].day
  }

  predicate NoRepeats(entries: seq<Entry>) {
    forall i, j :: 0 <= i < j < |entries| ==> !SameEvent(entries[i], entries[j])
  }

  /** One operation of a run on some day; a prune adds nothing. Each added entry carries the day it was added. */
  datatype Op = Op(today: int, incoming: seq<Entry>)

  predicate OpsInOrder(ops: seq<Op>) {
    (forall i, j :: 0 <= i < j < |ops| ==> ops[i].today <= ops[j].today)
    && forall i, k :: 0 <= i < |ops| && 0 <= k < |ops[i].incoming| ==> ops[i].incoming[k].day == ops[i].today
  }

  /** The store after the operations, from what the file held at first. */
  function After(start: seq<Entry>, ops: seq<Op>, limits: Bounds): seq<Entry> {
    if ops == [] then start
    else Added(After(start, ops[..|ops| - 1], limits), ops[|ops| - 1].incoming, ops[|ops| - 1].today, limits)
  }

  /** What the file held at first, and everything the operations ever appended. */
  function History(start: seq<Entry>, ops: seq<Op>, limits: Bounds): seq<Entry> {
    if ops == [] then start
    else History(start, ops[..|ops| - 1], limits) + Appended(After(start, ops[..|ops| - 1], limits), ops[|ops| - 1].incoming)
  }

  lemma {:induction false} AppendedFacts(entries: seq<Entry>, incoming: seq<Entry>, day: int)
    requires NoRepeats(entries) && forall k :: 0 <= k < |incoming| ==> incoming[k].day == day
    ensures NoRepeats(entries + Appended(entries, incoming))
    ensures forall k :: 0 <= k < |Appended(entries, incoming)| ==> Appended(entries, incoming)[k].day == day
  {
    if incoming != [] {
      var n := |incoming| - 1;
      AppendedFacts(entries, incoming[..n], day);
      var earlier := Appended(entries, incoming[..n]);
      if !Listed(entries + earlier, incoming[n]) {
        var all := entries + (earlier + [incoming[n]]);
        assert all == (entries + earlier) + [incoming[n]];
        forall i, j | 0 <= i < j < |all| ensures !SameEvent(all[i], all[j]) {
          assert all[i] == (entries + earlier)[i];
        }
      }
    } else {
      assert entries + [] == entries;
    }
  }

  /** How many leading entries are older than the cutoff. */
  function Stale(entries: seq<Entry>, cutoff: int): (n: nat)
    ensures n <= |entries|
  {
    if entries == [] || entries[0].day >= cutoff then 0 else 1 + Stale(entries[1..], cutoff)
  }

  lemma {:induction false} StaleSplits(entries: seq<Entry>, cutoff: int)
    requires Dated(entries)
    ensures forall i :: 0 <= i < |entries| ==> (entries[i].day >= cutoff <==> i >= Stale(entries, cutoff))
  {
    if entries != [] && entries[0].day < cutoff {
      StaleSplits(entries[1..], cutoff);
      assert forall i :: 0 < i < |entries| ==> entries[i] == entries[1..][i - 1];
    }
  }

  /** On a dated list, what is fresh is the rest after the stale ones. */
  lemma {:induction false} FreshIsSuffix(entries: seq<Entry>, cutoff: int, k: nat)
    requires Dated(entries) && k <= |entries|
    ensures Fresh(entries[..k], cutoff) == if k <= Stale(entries, cutoff) then [] else entries[Stale(entries, cutoff)..k]
  {
    StaleSplits(entries, cutoff);
    if k > 0 {
      FreshIsSuffix(entries, cutoff, k - 1);
      assert entries[..k][..k - 1] == entries[..k - 1];
    }
  }

  function Cut(entries: seq<Entry>, today: int, limits: Bounds): (n: nat)
    ensures n <= |entries|
  {
    var stale := Stale(entries, today - limits.retentionDays);
    if |entries| - limits.maxEntries > stale then |entries| - limits.maxEntries else stale
  }

  lemma PrunedIsSuffix(entries: seq<Entry>, today: int, limits: Bounds)
    requires Dated(entries)
    ensures Pruned(entries, today, limits) == entries[Cut(entries, today, limits)..]
  {
    hide Fresh, Stale, Dated;
    FreshIsSuffix(entries, today - limits.retentionDays, |entries|);
    assert entries[..|entries|] == entries;
  }

  lemma {:induction false} StaleIs(entries: seq<Entry>, cutoff: int, n: nat)
    requires n <= |entries| && forall i :: 0 <= i < n ==> entries[i].day < cutoff
    requires n < |entries| ==> entries[n].day >= cutoff
    ensures Stale(entries, cutoff) == n
  {
    if n > 0 {
      assert entries[1..][..n - 1] == entries[1..n];
      StaleIs(entries[1..], cutoff, n - 1);
    }
  }

  lemma {:induction false} StaleGrows(entries: seq<Entry>, early: int, late: int)
    requires early <= late
    ensures Stale(entries, early) <= Stale(entries, late)
  {
    if entries != [] { StaleGrows(entries[1..], early, late); }
  }

  lemma StaleShifts(all: seq<Entry>, k: nat, early: int, late: int)
    requires Dated(all) && k <= |all| && early <= late
    ensures Stale(all, early) <= Stale(all, late)
    ensures Stale(all[k..], late) == if Stale(all, late) >= k then Stale(all, late) - k else 0
  {
    StaleGrows(all, early, late);
    StaleSplits(all, late);
    StaleIs(all[k..], late, if Stale(all, late) >= k then Stale(all, late) - k else 0);
  }

  lemma StaleOfPrefix(history: seq<Entry>, extra: seq<Entry>, cutoff: int)
    requires Dated(history + extra)
    ensures Dated(history) && Stale(history, cutoff) <= Stale(history + extra, cutoff)
  {
    var all := history + extra;
    assert forall i :: 0 <= i < |history| ==> all[i] == history[i];
    StaleSplits(all, cutoff);
    var m := Stale(all, cutoff);
    StaleIs(history, cutoff, if m <= |history| then m else |history|);
  }

  /** Pruning a dated list twice, on a day not earlier and with more appended, is pruning it once. */
  lemma PruneAgain(history: seq<Entry>, extra: seq<Entry>, day: int, today: int, limits: Bounds)
    requires Dated(history + extra) && day <= today
    ensures Pruned(Pruned(history, day, limits) + extra, today, limits) == Pruned(history + extra, today, limits)
  {
    hide Stale, Fresh, Newest, Pruned;
    var all := history + extra;
    StaleOfPrefix(history, extra, day - limits.retentionDays);
    PrunedIsSuffix(history, day, limits);
    var k := Cut(history, day, limits);
    assert history[k..] + extra == all[k..];
    assert forall i :: 0 <= i < |all| - k ==> all[k..][i] == all[k + i];
    PrunedIsSuffix(all, today, limits);
    PrunedIsSuffix(all[k..], today, limits);
    StaleShifts(all, k, day - limits.retentionDays, today - limits.retentionDays);
    assert all[k..][Cut(all[k..], today, limits)..] == all[k + Cut(all[k..], today, limits)..];
  }

  /** From any dated file without repeats, after any operations on non-decreasing days the store is exactly the
      pruned history: within retention and cap, ordered by day, without a repeated event, and the newest part of
      the file and everything ever appended. */
  lemma {:induction false} StoreIsPrunedHistory(start: seq<Entry>, ops: seq<Op>, limits: Bounds)
    requires OpsInOrder(ops) && Dated(start) && NoRepeats(start)
    requires forall i :: 0 <= i < |start| && ops != [] ==> start[i].day <= ops[0].today
    ensures Dated(History(start, ops, limits)) && NoRepeats(After(start, ops, limits))
    ensures ops != [] ==> After(start, ops, limits) == Pruned(History(start, ops, limits), ops[|ops| - 1].today, limits)
    ensures forall i :: 0 <= i < |History(start, ops, limits)| && ops != [] ==>
      History(start, ops, limits)[i].day <= ops[|ops| - 1].today
    decreases |ops|
  {
    if ops != [] {
      var n := |ops| - 1;
      var init := ops[..n];
      assert forall i :: 0 <= i < n ==> init[i] == ops[i];
      StoreIsPrunedHistory(start, init, limits);
      var store, history := After(start, init, limits), History(start, init, limits);
      var extra := Appended(store, ops[n].incoming);
      AppendedFacts(store, ops[n].incoming, ops[n].today);
      assert Dated(history + extra);
      if n > 0 {
        PruneAgain(history, extra, init[n - 1].today, ops[n].today, limits);
      }
      PrunedFacts(store + extra, ops[n].today, limits);
    }
  }

  lemma {:induction false} StoreInHistory(start: seq<Entry>, ops: seq<Op>, limits: Bounds, e: Entry)
    requires e in After(start, ops, limits)
    ensures e in History(start, ops, limits)
  {
    hide Appended, Added;
    if ops != [] {
      var init, last := ops[..|ops| - 1], ops[|ops| - 1];
      AddedFrom(After(start, init, limits), last.incoming, last.today, limits, e);
      if e in After(start, init, limits) { StoreInHistory(start, init, limits, e); }
    }
  }

  lemma ListedInHistory(start: seq<Entry>, ops: seq<Op>, limits: Bounds, e: Entry)
    requires Listed(After(start, ops, limits), e)
    ensures Listed(History(start, ops, limits), e)
  {
    var store, history := After(start, ops, limits), History(start, ops, limits);
    var i := ListedAt(store, e);
    StoreInHistory(start, ops, limits, store[i]);
    var j :| 0 <= j < |history| && history[j] == store[i];
    assert SameEvent(history[j], e);
  }

  /** Every event an operation adds is in the history, by the added entry itself if the event was not listed when its
      turn came. */
  lemma {:induction false} HistoryLists(start: seq<Entry>, ops: seq<Op>, limits: Bounds, i: nat, k: nat)
    requires i < |ops| && k < |ops[i].incoming|
    ensures
      var store := After(start, ops[..i], limits);
      var e := ops[i].incoming[k];
      Listed(History(start, ops, limits), e)
      && (!Listed(store + Appended(store, ops[i].incoming[..k]), e) ==> e in History(start, ops, limits))
    decreases |ops|
  {
    hide Appended, Added, Listed;
    var init, last := ops[..|ops| - 1], ops[|ops| - 1];
    var store, e := After(start, init, limits), ops[i].incoming[k];
    var extra := Appended(store, last.incoming);
    if i < |ops| - 1 {
      assert init[..i] == ops[..i];
      HistoryLists(start, init, limits, i, k);
      ListedInMore(History(start, init, limits), extra, e);
    } else {
      AppendedLists(store, last.incoming, k);
      ListedInMore(store, extra, e);
      ListedInMore(History(start, init, limits), extra, e);
      if Listed(store, e) { ListedInHistory(start, init, limits, e); }
    }
  }

  /** What the store lists after any operations on non-decreasing days: exactly the events with an entry in the
      history that survives its pruning on the last day. */
  lemma StoreListsExactly(start: seq<Entry>, ops: seq<Op>, limits: Bounds, e: Entry)
    requires OpsInOrder(ops) && Dated(start) && NoRepeats(start) && ops != []
    requires forall i :: 0 <= i < |start| ==> start[i].day <= ops[0].today
    ensures
      var history := History(start, ops, limits);
      Listed(After(start, ops, limits), e) <==>
        exists j :: 0 <= j < |history| && SameEvent(history[j], e) && Survives(history, j, ops[|ops| - 1].today, limits)
  {
    hide Listed, Pruned, Survives;
    StoreIsPrunedHistory(start, ops, limits);
    PrunedListsExactly(History(start, ops, limits), ops[|ops| - 1].today, limits, e);
  }

  lemma PrunedFacts(entries: seq<Entry>, today: int, limits: Bounds)
    requires NoRepeats(entries)
    ensures NoRepeats(Pruned(entries, today, limits)) && |Pruned(entries, today, limits)| <= limits.maxEntries
    ensures forall i :: 0 <= i < |Pruned(entries, today, limits)| ==>
      Pruned(entries, today, limits)[i].day >= today - limits.retentionDays
  {
    FreshFacts(entries, today - limits.retentionDays);
  }

  lemma {:induction false} FreshFacts(entries: seq<Entry>, cutoff: int)
    requires NoRepeats(entries)
    ensures NoRepeats(Fresh(entries, cutoff))
    ensures forall i :: 0 <= i < |Fresh(entries, cutoff)| ==>
      Fresh(entries, cutoff)[i].day >= cutoff && Fresh(entries, cutoff)[i] in entries
  {
    if entries != [] {
      var n := |entries| - 1;
      var init := entries[..n];
      FreshFacts(init, cutoff);
      var f := Fresh(init, cutoff);
      forall i | 0 <= i < |f| ensures !SameEvent(f[i], entries[n]) && f[i] in entries {
        assert f[i] in init;
        var k :| 0 <= k < n && init[k] == f[i];
        assert entries[k] == f[i];
      }
    }
  }
}
