/** Identity collisions: counting them, and the acceptance gate (collector/identity_collision_diag.py). */
module Collisions {
  import opened Text
  import opened Identity

  datatype Source = AcsSource | CheckinSource | RejectSource

  /** A built event: its key and the safe fields it was computed from. */
  datatype Event = Event(key: string, form: Form)

  /** Keys are a keyed hash of the canonical text, taken to be without collisions of its own. */
  ghost predicate Keyed(hmac: string -> string, events: seq<Event>) {
    && (forall a, b :: hmac(a) == hmac(b) ==> a == b)
    && (forall e :: e in events ==> WellFormed(e.form) && Canonical(e.form).Some? && e.key == hmac(Canonical(e.form).value))
  }

  lemma SameKeySameForm(hmac: string -> string, events: seq<Event>, a: Event, b: Event)
    requires Keyed(hmac, events) && a in events && b in events && a.key == b.key
    ensures a.form == b.form
  {
    CanonicalInjective(a.form, b.form);
  }

  function ItemOf(f: Form): Option<HexKey> {
    match f
    case CheckinForm(_, item, _, _) => item
    case RejectForm(_, item, _) => item
    case HoldForm(_, item, _, _, _) => Some(item)
    case NonHoldForm(_, item, _) => Some(item)
  }

  // ----- grouping -----

  type Groups = map<string, seq<Event>>

  function GroupOf(events: seq<Event>, key: string): seq<Event> {
    if events == [] then []
    else
      var earlier := GroupOf(events[..|events| - 1], key);
      if events[|events| - 1].key == key then earlier + [events[|events| - 1]] else earlier
  }

  function KeysOf(events: seq<Event>): set<string> {
    set e | e in events :: e.key
  }

  function Grouped(events: seq<Event>): Groups {
    map key | key in KeysOf(events) :: GroupOf(events, key)
  }

  function Colliding(groups: Groups): Groups {
    map key | key in groups && |groups[key]| > 1 :: groups[key]
  }

  datatype Stats = Stats(source: Source, total: nat, identical: int, collisions: Groups)

  lemma {:induction false} GroupFacts(events: seq<Event>, key: string)
    ensures forall e :: e in GroupOf(events, key) <==> e in events && e.key == key
    ensures key in KeysOf(events) <==> GroupOf(events, key) != []
  {
    if events != [] {
      var n := |events| - 1;
      assert events == events[..n] + [events[n]];
      GroupFacts(events[..n], key);
    }
  }

  /** A source's events reduced to counts: `identical` counts events beyond the distinct keys. */
  method CollectSource(source: Source, events: seq<Event>) returns (stats: Stats)
    ensures stats == Stats(source, |events|, |events| - |KeysOf(events)|, Colliding(Grouped(events)))
  {
    hide Grouped, KeysOf, GroupOf;
    var groups: Groups := map[];
    NoGroups();
    for i := 0 to |events|
      invariant groups == Grouped(events[..i])
    {
      var e := events[i];
      GroupedStep(events[..i], e);
      groups := groups[e.key := (if e.key in groups then groups[e.key] else []) + [e]];
      assert events[..i + 1] == events[..i] + [e];
    }
    assert events[..|events|] == events;
    stats := Stats(source, |events|, |events| - |KeysOf(events)|, Colliding(groups));
  }

  lemma GroupedStep(events: seq<Event>, e: Event)
    ensures var before := Grouped(events);
      Grouped(events + [e]) == before[e.key := (if e.key in before then before[e.key] else []) + [e]]
  {
    var all := events + [e];
    assert all[..|events|] == events;
    GroupFacts(events, e.key);
    assert KeysOf(all) == KeysOf(events) + {e.key};
  }

  /** The events beyond the first of each group. */
  ghost function Extra(groups: Groups): int {
    if groups == map[] then 0
    else
      var key :| key in groups;
      |groups[key]| - 1 + Extra(groups - {key})
  }

  lemma {:induction false} ExtraAt(groups: Groups, key: string)
    requires key in groups
    ensures Extra(groups) == |groups[key]| - 1 + Extra(groups - {key})
    decreases |groups|
  {
    var picked :| picked in groups && Extra(groups) == |groups[picked]| - 1 + Extra(groups - {picked});
    if picked != key {
      assert (groups - {picked}).Keys == groups.Keys - {picked};
      ExtraAt(groups - {picked}, key);
      assert (groups - {key}).Keys == groups.Keys - {key};
      ExtraAt(groups - {key}, picked);
      assert groups - {picked} - {key} == groups - {key} - {picked};
    }
  }

  /** One more event: its group grows by one, every other group stays. */
  lemma GroupedGrows(events: seq<Event>, e: Event)
    ensures var before, after := Grouped(events), Grouped(events + [e]);
      && KeysOf(events + [e]) == KeysOf(events) + {e.key}
      && e.key in after && |after[e.key]| == (if e.key in before then |before[e.key]| + 1 else 1)
      && after - {e.key} == before - {e.key}
  {
    var all := events + [e];
    assert all[..|events|] == events;
    GroupFacts(events, e.key);
    assert KeysOf(all) == KeysOf(events) + {e.key};
    assert Grouped(all) - {e.key} == Grouped(events) - {e.key};
  }

  lemma {:induction false} ExtraOfGrouped(events: seq<Event>)
    ensures Extra(Grouped(events)) == |events| - |KeysOf(events)|
  {
    hide Grouped, KeysOf;
    if events == [] {
      NoGroups();
    } else {
      var init, e := events[..|events| - 1], events[|events| - 1];
      assert events == init + [e];
      ExtraOfGrouped(init);
      GroupedGrows(init, e);
      var before, after := Grouped(init), Grouped(events);
      ExtraAt(after, e.key);
      assert e.key in before <==> e.key in KeysOf(init) by { GroupedKeys(init); }
      if e.key in before {
        ExtraAt(before, e.key);
      } else {
        assert before - {e.key} == before;
      }
    }
  }

  lemma NoGroups()
    ensures Grouped([]) == map[] && KeysOf([]) == {}
  {
  }

  lemma GroupedKeys(events: seq<Event>)
    ensures Grouped(events).Keys == KeysOf(events)
  {
  }

  lemma {:induction false} ExtraOfColliding(groups: Groups)
    requires forall key :: key in groups ==> groups[key] != []
    ensures Extra(groups) == Extra(Colliding(groups))
    decreases |groups|
  {
    if groups == map[] {
      assert Colliding(groups) == map[];
    } else {
      var key :| key in groups;
      assert (groups - {key}).Keys == groups.Keys - {key};
      ExtraOfColliding(groups - {key});
      ExtraAt(groups, key);
      if |groups[key]| > 1 {
        ExtraAt(Colliding(groups), key);
        assert Colliding(groups) - {key} == Colliding(groups - {key});
      } else {
        assert Colliding(groups) == Colliding(groups - {key});
      }
    }
  }

  /** The counter of identical events is the sum, over the collision groups, of their sizes less one. */
  lemma IdenticalIsExtra(events: seq<Event>)
    ensures |events| - |KeysOf(events)| == Extra(Colliding(Grouped(events)))
  {
    ExtraOfGrouped(events);
    forall key | key in Grouped(events) ensures Grouped(events)[key] != [] { GroupFacts(events, key); }
    ExtraOfColliding(Grouped(events));
  }

  // ----- the gate -----

  const MAX_GROUP_SIZE := 2
  const MAX_RATE := 0.12
  const MIN_SPREAD := 0.90
  const PERMITTED := {"ils_acs_failure", "rfid_collision"}

  datatype GroupClass = Oversized | HoldPair | KeylessReject | UnexpectedItem | UnexpectedKeyless

  function ClassOf(source: Source, group: seq<Event>): GroupClass
    requires group != []
  {
    var sample := group[0].form;
    if |group| > MAX_GROUP_SIZE then Oversized
    else if ItemOf(sample).Some? then
      if source == AcsSource && sample.HoldForm? then HoldPair else UnexpectedItem
    else if source == RejectSource && sample.RejectForm? && sample.errorClass in PERMITTED then KeylessReject
    else UnexpectedKeyless
  }

  datatype Gate = Gate(passed: bool, largest: nat, unexpectedItem: nat, unexpectedKeyless: nat, rate: real, spread: real)

  function Times(groups: Groups): set<LineText> {
    set key, i | key in groups && 0 <= i < |groups[key]| :: groups[key][i].form.time
  }

  function RateOf(stats: Stats): real {
    if stats.total > 0 then stats.identical as real / stats.total as real else 0.0
  }

  function SpreadOf(stats: Stats): real {
    if |stats.collisions| > 0 then |Times(stats.collisions)| as real / |stats.collisions| as real else 1.0
  }

  /** The first source that is the rejects. */
  function RejectsOf(all: seq<Stats>): Option<Stats> {
    if all == [] then None
    else if RejectsOf(all[..|all| - 1]).Some? then RejectsOf(all[..|all| - 1])
    else if all[|all| - 1].source == RejectSource then Some(all[|all| - 1])
    else None
  }

  predicate Expected(kind: GroupClass) {
    kind == HoldPair || kind == KeylessReject
  }

  ghost predicate GroupsFine(stats: Stats) {
    forall key :: key in stats.collisions ==> stats.collisions[key] != [] && Expected(ClassOf(stats.source, stats.collisions[key]))
  }

  predicate Collected(stats: Stats) {
    forall key :: key in stats.collisions ==> stats.collisions[key] != []
  }

  /** The keys of a source's groups of one kind. */
  function OfClass(stats: Stats, kind: GroupClass): set<string> {
    set key | key in stats.collisions && stats.collisions[key] != [] && ClassOf(stats.source, stats.collisions[key]) == kind
  }

  /** The two counters, with the groups of `todo` left out. */
  ghost predicate CountersBut(stats: Stats, gate: Gate, after: Gate, todo: set<string>) {
    && after.unexpectedItem == gate.unexpectedItem + |OfClass(stats, UnexpectedItem) - todo|
    && after.unexpectedKeyless == gate.unexpectedKeyless + |OfClass(stats, UnexpectedKeyless) - todo|
  }

  /** The largest group, with those of `todo` left out. */
  ghost predicate LargestBut(stats: Stats, gate: Gate, after: Gate, todo: set<string>) {
    && after.largest >= gate.largest
    && (forall key :: key in stats.collisions && key !in todo ==> |stats.collisions[key]| <= after.largest)
    && (after.largest == gate.largest || exists key :: key in stats.collisions && |stats.collisions[key]| == after.largest)
  }

  function Counted(gate: Gate, size: nat, kind: GroupClass): Gate {
    gate.(largest := if size > gate.largest then size else gate.largest,
          unexpectedItem := gate.unexpectedItem + (if kind == UnexpectedItem then 1 else 0),
          unexpectedKeyless := gate.unexpectedKeyless + (if kind == UnexpectedKeyless then 1 else 0))
  }

  lemma OneCounted(stats: Stats, kind: GroupClass, todo: set<string>, key: string)
    requires Collected(stats) && key in todo && key in stats.collisions
    ensures |OfClass(stats, kind) - (todo - {key})|
         == |OfClass(stats, kind) - todo| + if ClassOf(stats.source, stats.collisions[key]) == kind then 1 else 0
  {
    hide ClassOf;
    var one := if ClassOf(stats.source, stats.collisions[key]) == kind then {key} else {};
    assert OfClass(stats, kind) - (todo - {key}) == (OfClass(stats, kind) - todo) + one;
  }

  lemma CountStep(stats: Stats, gate: Gate, after: Gate, todo: set<string>, key: string)
    requires Collected(stats) && key in todo && key in stats.collisions
    requires CountersBut(stats, gate, after, todo) && LargestBut(stats, gate, after, todo)
    ensures
      var group := stats.collisions[key];
      var next := Counted(after, |group|, ClassOf(stats.source, group));
      CountersBut(stats, gate, next, todo - {key}) && LargestBut(stats, gate, next, todo - {key})
  {
    hide ClassOf, OfClass;
    OneCounted(stats, UnexpectedItem, todo, key);
    OneCounted(stats, UnexpectedKeyless, todo, key);
  }

  lemma NothingCounted(stats: Stats, gate: Gate)
    ensures CountersBut(stats, gate, gate, stats.collisions.Keys) && LargestBut(stats, gate, gate, stats.collisions.Keys)
  {
    hide ClassOf;
    assert OfClass(stats, UnexpectedItem) - stats.collisions.Keys == {};
    assert OfClass(stats, UnexpectedKeyless) - stats.collisions.Keys == {};
  }

  lemma AllCounted(stats: Stats, gate: Gate, after: Gate)
    requires Collected(stats) && CountersBut(stats, gate, after, {}) && LargestBut(stats, gate, after, {})
    ensures after.unexpectedItem == gate.unexpectedItem + |OfClass(stats, UnexpectedItem)|
    ensures after.unexpectedKeyless == gate.unexpectedKeyless + |OfClass(stats, UnexpectedKeyless)|
    ensures (after.largest <= MAX_GROUP_SIZE && after.unexpectedItem == 0 && after.unexpectedKeyless == 0)
       <==> (gate.largest <= MAX_GROUP_SIZE && gate.unexpectedItem == 0 && gate.unexpectedKeyless == 0 && GroupsFine(stats))
  {
    assert OfClass(stats, UnexpectedItem) - {} == OfClass(stats, UnexpectedItem);
    assert OfClass(stats, UnexpectedKeyless) - {} == OfClass(stats, UnexpectedKeyless);
    FineExactly(stats);
  }

  predicate SizesFine(stats: Stats) {
    forall key :: key in stats.collisions ==> |stats.collisions[key]| <= MAX_GROUP_SIZE
  }

  /** All groups are fine exactly if none is too large or of an unexpected kind. */
  lemma FineExactly(stats: Stats)
    requires Collected(stats)
    ensures GroupsFine(stats) <==>
      SizesFine(stats) && OfClass(stats, UnexpectedItem) == {} && OfClass(stats, UnexpectedKeyless) == {}
  {
    if SizesFine(stats) && OfClass(stats, UnexpectedItem) == {} && OfClass(stats, UnexpectedKeyless) == {} {
      forall key | key in stats.collisions ensures Expected(ClassOf(stats.source, stats.collisions[key])) {
        assert key !in OfClass(stats, UnexpectedItem) && key !in OfClass(stats, UnexpectedKeyless);
      }
    }
    if GroupsFine(stats) {
      assert OfClass(stats, UnexpectedItem) == {} && OfClass(stats, UnexpectedKeyless) == {};
    }
  }

  /** Counts one source's groups: the unexpected ones of either kind, and the largest. */
  method CountGroups(stats: Stats, gate: Gate) returns (after: Gate)
    requires Collected(stats)
    ensures after.unexpectedItem == gate.unexpectedItem + |OfClass(stats, UnexpectedItem)|
    ensures after.unexpectedKeyless == gate.unexpectedKeyless + |OfClass(stats, UnexpectedKeyless)|
    ensures after.largest >= gate.largest && forall key :: key in stats.collisions ==> |stats.collisions[key]| <= after.largest
    ensures after.largest == gate.largest || exists key :: key in stats.collisions && |stats.collisions[key]| == after.largest
    ensures (after.largest <= MAX_GROUP_SIZE && after.unexpectedItem == 0 && after.unexpectedKeyless == 0)
       <==> (gate.largest <= MAX_GROUP_SIZE && gate.unexpectedItem == 0 && gate.unexpectedKeyless == 0 && GroupsFine(stats))
  {
    hide ClassOf, OfClass, CountersBut, GroupsFine;
    after := gate;
    var todo := stats.collisions.Keys;
    NothingCounted(stats, gate);
    while todo != {}
      invariant todo <= stats.collisions.Keys
      invariant CountersBut(stats, gate, after, todo) && LargestBut(stats, gate, after, todo)
    {
      var key :| key in todo;
      var group := stats.collisions[key];
      CountStep(stats, gate, after, todo, key);
      after := Counted(after, |group|, ClassOf(stats.source, group));
      todo := todo - {key};
    }
    AllCounted(stats, gate, after);
  }

  /** Passes if and only if every group of every source is one of the two expected kinds and the two ratios of the
      rejects are within bounds. */
  method EvaluateGate(all: seq<Stats>) returns (gate: Gate)
    requires forall k :: 0 <= k < |all| ==> Collected(all[k])
    ensures gate.rate == (match RejectsOf(all) case Some(s) => RateOf(s) case None => 0.0)
    ensures gate.spread == (match RejectsOf(all) case Some(s) => SpreadOf(s) case None => 1.0)
    ensures gate.passed <==> (forall k :: 0 <= k < |all| ==> GroupsFine(all[k])) && gate.rate <= MAX_RATE && gate.spread >= MIN_SPREAD
  {
    gate := Gate(false, 0, 0, 0, 0.0, 1.0);
    var rejects: Option<Stats> := None;
    for k := 0 to |all|
      invariant rejects == RejectsOf(all[..k])
      invariant gate.rate == 0.0 && gate.spread == 1.0
      invariant (gate.largest <= MAX_GROUP_SIZE && gate.unexpectedItem == 0 && gate.unexpectedKeyless == 0)
           <==> forall j :: 0 <= j < k ==> GroupsFine(all[j])
    {
      assert all[..k + 1][..k] == all[..k];
      var counted := CountGroups(all[k], gate);
      gate := counted.(rate := 0.0, spread := 1.0);
      if rejects.None? && all[k].source == RejectSource { rejects := Some(all[k]); }
    }
    assert all[..|all|] == all;
    if rejects.Some? {
      gate := gate.(rate := RateOf(rejects.value), spread := SpreadOf(rejects.value));
    }
    gate := gate.(passed := gate.largest <= MAX_GROUP_SIZE && gate.unexpectedItem == 0 && gate.unexpectedKeyless == 0
                            && gate.rate <= MAX_RATE && gate.spread >= MIN_SPREAD);
  }

  /** The ratios in whole numbers: at most 12 identical events in 100, and distinct times for at least 90 keys in 100. */
  lemma RatiosInWholeNumbers(stats: Stats)
    ensures stats.total > 0 ==> (RateOf(stats) <= MAX_RATE <==> 100 * stats.identical <= 12 * stats.total)
    ensures SpreadOf(stats) >= MIN_SPREAD <==> 100 * |Times(stats.collisions)| >= 90 * |stats.collisions|
  {
    if stats.total > 0 { RatioBounds(stats.identical, stats.total, MAX_RATE); }
    if |stats.collisions| > 0 {
      RatioBounds(|Times(stats.collisions)|, |stats.collisions|, MIN_SPREAD);
    }
  }

  lemma RatioBounds(a: int, b: nat, bound: real)
    requires b > 0
    ensures (a as real / b as real <= bound <==> a as real <= bound * b as real)
    ensures (a as real / b as real >= bound <==> a as real >= bound * b as real)
  {
    var q := a as real / b as real;
    assert q * b as real == a as real;
    if q <= bound { assert q * b as real <= bound * b as real; }
    if q >= bound { assert q * b as real >= bound * b as real; }
    if q > bound { assert q * b as real > bound * b as real; }
    if q < bound { assert q * b as real < bound * b as real; }
  }

  // ----- what a pass means -----

  lemma {:induction false} PairsCountOnce(groups: Groups)
    requires forall key :: key in groups ==> |groups[key]| == 2
    ensures Extra(groups) == |groups|
    decreases |groups|
  {
    if groups != map[] {
      var key :| key in groups;
      assert (groups - {key}).Keys == groups.Keys - {key};
      PairsCountOnce(groups - {key});
      ExtraAt(groups, key);
    }
  }

  predicate Permitted(source: Source, f: Form) {
    (source == AcsSource && f.HoldForm?)
    || (source == RejectSource && f.RejectForm? && f.item.None? && f.errorClass in PERMITTED)
  }

  /** Where every group is fine, each collision is a pair, so the identical events number the groups; and every
      event in one, not just the sample, is an ACS hold, or a reject without an item in a permitted class. */
  lemma PassMeans(hmac: string -> string, source: Source, events: seq<Event>)
    requires Keyed(hmac, events)
    requires GroupsFine(Stats(source, |events|, |events| - |KeysOf(events)|, Colliding(Grouped(events))))
    ensures |events| - |KeysOf(events)| == |Colliding(Grouped(events))|
    ensures forall a, b :: a in events && b in events && a.key == b.key && |GroupOf(events, a.key)| > 1 ==>
      a == b && Permitted(source, a.form)
  {
    hide Canonical, WellFormed, IsHexKey, IsDestination, IsLineText, ClassOf, Grouped, KeysOf, Keyed;
    var groups := Colliding(Grouped(events));
    IdenticalIsExtra(events);
    forall key | key in groups ensures |groups[key]| == 2 { FineIsPair(source, groups[key]); }
    PairsCountOnce(groups);
    forall a, b | a in events && b in events && a.key == b.key && |GroupOf(events, a.key)| > 1
      ensures a == b && Permitted(source, a.form)
    {
      SameKeySameForm(hmac, events, a, b);
      CollidingIsPermitted(hmac, source, events, a);
    }
  }

  lemma FineIsPair(source: Source, group: seq<Event>)
    requires |group| > 1 && Expected(ClassOf(source, group))
    ensures |group| == 2 && Permitted(source, group[0].form)
  {
    hide IsHexKey, IsDestination, IsLineText;
  }

  lemma CollidingIsPermitted(hmac: string -> string, source: Source, events: seq<Event>, a: Event)
    requires Keyed(hmac, events) && a in events && |GroupOf(events, a.key)| > 1
    requires GroupsFine(Stats(source, |events|, |events| - |KeysOf(events)|, Colliding(Grouped(events))))
    ensures Permitted(source, a.form)
  {
    hide Canonical, WellFormed, IsHexKey, IsDestination, IsLineText, ClassOf, Keyed;
    var group := GroupOf(events, a.key);
    GroupFacts(events, a.key);
    assert a.key in Colliding(Grouped(events)) && Colliding(Grouped(events))[a.key] == group;
    assert group[0] in group;
    SameKeySameForm(hmac, events, a, group[0]);
    FineIsPair(source, group);
  }

  /** The time a group has, if it has one. */
  function TimeAt(groups: Groups, key: string): LineText {
    if key in groups && groups[key] != [] then groups[key][0].form.time else ""
  }

  lemma {:induction false} ImageSize(groups: Groups, keys: set<string>)
    ensures |set key | key in keys :: TimeAt(groups, key)| <= |keys|
  {
    hide IsLineText, TimeAt;
    if keys != {} {
      var key :| key in keys;
      ImageSize(groups, keys - {key});
      assert (set k | k in keys :: TimeAt(groups, k)) == (set k | k in keys - {key} :: TimeAt(groups, k)) + {TimeAt(groups, key)};
    } else {
      assert (set k | k in keys :: TimeAt(groups, k)) == {};
    }
  }

  /** A key fixes the event time, so a group has one time and the spread never exceeds 1. */
  lemma SpreadAtMostOne(hmac: string -> string, source: Source, events: seq<Event>)
    requires Keyed(hmac, events)
    ensures var stats := Stats(source, |events|, |events| - |KeysOf(events)|, Colliding(Grouped(events)));
      |Times(stats.collisions)| <= |stats.collisions| && SpreadOf(stats) <= 1.0
  {
    hide Canonical, WellFormed, IsHexKey, IsDestination, IsLineText, GroupOf, Times;
    var groups: Groups := Colliding(Grouped(events));
    forall key, i, j | key in groups && 0 <= i < |groups[key]| && 0 <= j < |groups[key]|
      ensures groups[key][i].form.time == groups[key][j].form.time
    {
      GroupFacts(events, key);
      assert groups[key][i] in GroupOf(events, key) && groups[key][j] in GroupOf(events, key);
      SameKeySameForm(hmac, events, groups[key][i], groups[key][j]);
    }
    TimesSize(groups);
    if |groups| > 0 { QuotientAtMostOne(|Times(groups)|, |groups|); }
  }

  lemma TimesSize(groups: Groups)
    requires forall key, i, j :: key in groups && 0 <= i < |groups[key]| && 0 <= j < |groups[key]| ==>
      groups[key][i].form.time == groups[key][j].form.time
    ensures |Times(groups)| <= |groups|
  {
    hide IsHexKey, IsDestination, IsLineText;
    ImageSize(groups, groups.Keys);
    var image := set key | key in groups.Keys :: TimeAt(groups, key);
    forall time | time in Times(groups) ensures time in image {
      var key, i :| key in groups && 0 <= i < |groups[key]| && groups[key][i].form.time == time;
      assert TimeAt(groups, key) == time;
    }
    SubsetSize(Times(groups), image);
  }

  lemma QuotientAtMostOne(a: nat, b: nat)
    requires a <= b && b > 0
    ensures a as real / b as real <= 1.0
  {
  }
}
