/** Delivering a chunk's events (collector/v2_uploader.py, `_deliver` in collector/v2_run.py).

    The server is any function from the requests sent so far to a reply, so a reply may depend on the whole
    history. Nothing of a reply is used but its status, the fixed names of the lists and integer positions. */
module Delivery {
  import opened Text
  import opened Quarantines

  // ----- batches -----

  /** What one request carries: a list for each kind, in the order of the payload. */
  datatype Batch = Batch(checkins: seq<SafeEvent>, rejects: seq<SafeEvent>, acsItems: seq<SafeEvent>) {
    function Of(kind: Kind): seq<SafeEvent> {
      match kind
      case Checkins => checkins
      case Rejects => rejects
      case AcsItems => acsItems
    }

    function Size(): nat {
      |checkins| + |rejects| + |acsItems|
    }

    function Contents(): multiset<SafeEvent> {
      multiset(checkins) + multiset(rejects) + multiset(acsItems)
    }
  }

  type Positions = map<Kind, set<nat>>

  function At(positions: Positions, kind: Kind): set<nat> {
    if kind in positions then positions[kind] else {}
  }

  function OfKind(events: seq<SafeEvent>, kind: Kind): seq<SafeEvent> {
    if events == [] then []
    else
      var earlier := OfKind(events[..|events| - 1], kind);
      if events[|events| - 1].kind == kind then earlier + [events[|events| - 1]] else earlier
  }

  method BatchOf(events: seq<SafeEvent>) returns (batch: Batch)
    ensures forall kind :: batch.Of(kind) == OfKind(events, kind)
  {
    batch := Batch([], [], []);
    for i := 0 to |events|
      invariant batch == Batch(OfKind(events[..i], Checkins), OfKind(events[..i], Rejects), OfKind(events[..i], AcsItems))
    {
      assert events[..i + 1][..i] == events[..i];
      match events[i].kind {
        case Checkins => batch := batch.(checkins := batch.checkins + [events[i]]);
        case Rejects => batch := batch.(rejects := batch.rejects + [events[i]]);
        case AcsItems => batch := batch.(acsItems := batch.acsItems + [events[i]]);
      }
    }
    assert events[..|events|] == events;
  }

  lemma OneMoreOfKind(events: seq<SafeEvent>, kind: Kind)
    requires events != []
    ensures
      var init, e := OfKind(events[..|events| - 1], kind), events[|events| - 1];
      multiset(OfKind(events, kind)) == multiset(init) + (if kind == e.kind then multiset{e} else multiset{})
      && |OfKind(events, kind)| == |init| + if kind == e.kind then 1 else 0
  {
  }

  /** The three lists hold exactly the given events. */
  lemma {:induction false} ListsHoldAll(events: seq<SafeEvent>)
    ensures multiset(OfKind(events, Checkins)) + multiset(OfKind(events, Rejects)) + multiset(OfKind(events, AcsItems))
         == multiset(events)
    ensures |OfKind(events, Checkins)| + |OfKind(events, Rejects)| + |OfKind(events, AcsItems)| == |events|
  {
    hide OfKind;
    if events == [] {
      assert forall kind :: OfKind([], kind) == [] by { NoEvents(); }
    } else {
      var n := |events| - 1;
      var init, e := events[..n], events[n];
      ListsHoldAll(init);
      assert multiset(events) == multiset(init) + multiset{e} by { assert events == init + [e]; }
      OneMoreOfKind(events, Checkins);
      OneMoreOfKind(events, Rejects);
      OneMoreOfKind(events, AcsItems);
    }
  }

  lemma NoEvents()
    ensures forall kind :: OfKind([], kind) == []
  {
  }

  function Kept(events: seq<SafeEvent>, drop: set<nat>): seq<SafeEvent> {
    if events == [] then []
    else
      var earlier := Kept(events[..|events| - 1], drop);
      if |events| - 1 in drop then earlier else earlier + [events[|events| - 1]]
  }

  function Dropped(events: seq<SafeEvent>, drop: set<nat>): seq<SafeEvent> {
    if events == [] then []
    else
      var earlier := Dropped(events[..|events| - 1], drop);
      if |events| - 1 in drop then earlier + [events[|events| - 1]] else earlier
  }

  function InRange(drop: set<nat>, n: nat): set<nat> {
    set i | i in drop && i < n
  }

  lemma {:induction false} KeptAndDropped(events: seq<SafeEvent>, drop: set<nat>)
    ensures multiset(Kept(events, drop)) + multiset(Dropped(events, drop)) == multiset(events)
    ensures |Kept(events, drop)| + |Dropped(events, drop)| == |events|
  {
    if events != [] {
      var n := |events| - 1;
      KeptAndDropped(events[..n], drop);
      assert multiset(events) == multiset(events[..n]) + multiset{events[n]} by { assert events == events[..n] + [events[n]]; }
    }
  }

  lemma {:induction false} DroppedCount(events: seq<SafeEvent>, drop: set<nat>)
    ensures |Dropped(events, drop)| == |InRange(drop, |events|)|
  {
    if events == [] {
      assert InRange(drop, 0) == {};
    } else {
      var n := |events| - 1;
      DroppedCount(events[..n], drop);
      assert InRange(drop, n + 1) == if n in drop then InRange(drop, n) + {n} else InRange(drop, n);
    }
  }

  lemma KeptSnoc(events: seq<SafeEvent>, drop: set<nat>)
    requires events != []
    ensures
      var n := |events| - 1;
      Kept(events, drop) == Kept(events[..n], drop) + (if n in drop then [] else [events[n]])
      && Dropped(events, drop) == Dropped(events[..n], drop) + (if n in drop then [events[n]] else [])
  {
  }

  lemma NothingKept(drop: set<nat>)
    ensures Kept([], drop) == [] && Dropped([], drop) == []
  {
  }

  /** The kept events are those at the other positions, each at its place in the order. */
  lemma {:induction false} KeptInOrder(events: seq<SafeEvent>, drop: set<nat>) returns (at: seq<nat>)
    ensures |at| == |Kept(events, drop)|
    ensures forall k :: 0 <= k < |at| ==> at[k] < |events| && at[k] !in drop && Kept(events, drop)[k] == events[at[k]]
    ensures forall j, k :: 0 <= j < k < |at| ==> at[j] < at[k]
    ensures forall i: nat :: i < |events| && i !in drop ==> i in at
  {
    hide Kept;
    NothingKept(drop);
    if events == [] { return []; }
    var n := |events| - 1;
    var before := KeptInOrder(events[..n], drop);
    KeptSnoc(events, drop);
    if n in drop { return before; }
    at := before + [n];
    forall i: nat | i < |events| && i !in drop ensures i in at {
      if i < n {
        var k :| 0 <= k < |before| && before[k] == i;
        assert at[k] == i;
      } else {
        assert at[|before|] == n;
      }
    }
  }

  /** The removed events are those at the given positions, each at its place in the order. */
  lemma {:induction false} DroppedInOrder(events: seq<SafeEvent>, drop: set<nat>) returns (at: seq<nat>)
    ensures |at| == |Dropped(events, drop)|
    ensures forall k :: 0 <= k < |at| ==> at[k] < |events| && at[k] in drop && Dropped(events, drop)[k] == events[at[k]]
    ensures forall j, k :: 0 <= j < k < |at| ==> at[j] < at[k]
    ensures forall i: nat :: i < |events| && i in drop ==> i in at
  {
    hide Dropped;
    NothingKept(drop);
    if events == [] { return []; }
    var n := |events| - 1;
    var before := DroppedInOrder(events[..n], drop);
    KeptSnoc(events, drop);
    if n !in drop { return before; }
    at := before + [n];
    forall i: nat | i < |events| && i in drop ensures i in at {
      if i < n {
        var k :| 0 <= k < |before| && before[k] == i;
        assert at[k] == i;
      } else {
        assert at[|before|] == n;
      }
    }
  }

  method SplitList(events: seq<SafeEvent>, drop: set<nat>) returns (kept: seq<SafeEvent>, gone: seq<SafeEvent>)
    ensures kept == Kept(events, drop) && gone == Dropped(events, drop)
    ensures multiset(kept) + multiset(gone) == multiset(events)
    ensures |kept| + |gone| == |events| && |gone| == |InRange(drop, |events|)|
  {
    kept, gone := [], [];
    for i := 0 to |events|
      invariant kept == Kept(events[..i], drop) && gone == Dropped(events[..i], drop)
    {
      assert events[..i + 1][..i] == events[..i];
      if i in drop { gone := gone + [events[i]]; } else { kept := kept + [events[i]]; }
    }
    assert events[..|events|] == events;
    KeptAndDropped(events, drop);
    DroppedCount(events, drop);
  }

  /** Takes the reported events out of the batch and returns both parts: nothing is lost or doubled, each
      list keeps its order, and as many events leave as there are positions inside the lists. */
  method Without(batch: Batch, positions: Positions) returns (rest: Batch, removed: seq<SafeEvent>)
    ensures rest == Rest(batch, positions) && removed == Removed(batch, positions)
    ensures rest.Contents() + multiset(removed) == batch.Contents()
    ensures rest.Size() + |removed| == batch.Size()
    ensures |removed| == |InRange(At(positions, Checkins), |batch.checkins|)| + |InRange(At(positions, Rejects), |batch.rejects|)|
                       + |InRange(At(positions, AcsItems), |batch.acsItems|)|
  {
    hide Kept, Dropped, InRange;
    var checkins, c := SplitList(batch.checkins, At(positions, Checkins));
    var rejects, r := SplitList(batch.rejects, At(positions, Rejects));
    var acsItems, a := SplitList(batch.acsItems, At(positions, AcsItems));
    rest, removed := Batch(checkins, rejects, acsItems), c + r + a;
    AddThree(multiset(checkins), multiset(c), multiset(rejects), multiset(r), multiset(acsItems), multiset(a));
  }

  function Rest(batch: Batch, positions: Positions): Batch {
    Batch(Kept(batch.checkins, At(positions, Checkins)), Kept(batch.rejects, At(positions, Rejects)),
          Kept(batch.acsItems, At(positions, AcsItems)))
  }

  function Removed(batch: Batch, positions: Positions): seq<SafeEvent> {
    Dropped(batch.checkins, At(positions, Checkins)) + Dropped(batch.rejects, At(positions, Rejects))
    + Dropped(batch.acsItems, At(positions, AcsItems))
  }

  lemma AddThree(a: multiset<SafeEvent>, b: multiset<SafeEvent>, c: multiset<SafeEvent>, d: multiset<SafeEvent>,
                 e: multiset<SafeEvent>, f: multiset<SafeEvent>)
    ensures (a + c + e) + (b + d + f) == (a + b) + (c + d) + (e + f)
  {
  }

  // ----- replies -----

  /** A value inside a reply's JSON lists; a boolean is not an integer. */
  datatype Value = Int(n: int) | NotInt

  datatype LocPart = Name(text: string) | Index(n: int) | OtherPart

  /** The parts of a JSON body that are read. `conflicts` maps list names to lists (None: not a list);
      `detail` is the list of error locations (None inside: no location list). */
  datatype Body = Body(status: string, code: string, conflicts: Option<map<string, Option<seq<Value>>>>,
                       detail: Option<seq<Option<seq<LocPart>>>>, inserted: int, duplicates: int)

  datatype Reply = ConnectionFailed | ClientFailed | Answer(status: int, body: Option<Body>)

  datatype Category = Auth | Config | Permanent | Retryable | Other

  datatype Outcome =
    | Accepted(inserted: int, duplicates: int)
    | Conflict(positions: Positions)
    | Invalid(positions: Positions)
    | Failed(category: Category)

  function KindOf(name: string): Option<Kind> {
    if name == "checkins" then Some(Checkins)
    else if name == "rejects" then Some(Rejects)
    else if name == "acs_items" then Some(AcsItems)
    else None
  }

  function NameOf(kind: Kind): string {
    match kind
    case Checkins => "checkins"
    case Rejects => "rejects"
    case AcsItems => "acs_items"
  }

  const KINDS: set<Kind> := {Checkins, Rejects, AcsItems}

  lemma AllKinds()
    ensures forall kind :: kind in KINDS
  {
    forall kind: Kind ensures kind in KINDS {
      match kind case Checkins => case Rejects => case AcsItems =>
    }
  }

  function FailureFor(status: int): Category {
    if status == 401 || status == 403 then Auth
    else if status == 404 || status == 405 then Config
    else if status == 400 || status == 413 then Permanent
    else if status == 429 || 500 <= status <= 599 then Retryable
    else Other
  }

  predicate GoodPosition(value: Value, size: nat) {
    value.Int? && 0 <= value.n < size
  }

  predicate GoodList(name: string, values: Option<seq<Value>>, batch: Batch) {
    KindOf(name).Some? && values.Some? && values.value != []
    && forall i :: 0 <= i < |values.value| ==> GoodPosition(values.value[i], |batch.Of(KindOf(name).value)|)
  }

  /** A usable 409 body: at least one list, and only known lists of integers inside the batch. */
  predicate GoodConflicts(raw: Option<map<string, Option<seq<Value>>>>, batch: Batch) {
    raw.Some? && raw.value != map[] && forall name :: name in raw.value ==> GoodList(name, raw.value[name], batch)
  }

  function Ints(values: seq<Value>): set<nat> {
    set v | v in values && v.Int? && v.n >= 0 :: v.n
  }

  /** The positions a 409 reports, or None if anything in it is malformed. */
  function ConflictPositions(raw: Option<map<string, Option<seq<Value>>>>, batch: Batch): Option<Positions> {
    if !GoodConflicts(raw, batch) then None
    else Some(map kind | kind in KINDS && NameOf(kind) in raw.value :: Ints(raw.value[NameOf(kind)].value))
  }

  /** A 422 location that names one event of the batch: body, list, index, anything. */
  predicate GoodLoc(loc: Option<seq<LocPart>>, batch: Batch) {
    loc.Some? && |loc.value| >= 3 && loc.value[0] == Name("body") && loc.value[1].Name? && KindOf(loc.value[1].text).Some?
    && loc.value[2].Index? && 0 <= loc.value[2].n < |batch.Of(KindOf(loc.value[1].text).value)|
  }

  /** The location names the event at this position of this list. */
  predicate Names(loc: Option<seq<LocPart>>, batch: Batch, kind: Kind, i: nat) {
    GoodLoc(loc, batch) && KindOf(loc.value[1].text) == Some(kind) && loc.value[2].n == i
  }

  predicate Pinned(errors: seq<Option<seq<LocPart>>>, batch: Batch, kind: Kind, i: nat) {
    exists k :: 0 <= k < |errors| && Names(errors[k], batch, kind, i)
  }

  function PinnedIn(errors: seq<Option<seq<LocPart>>>, batch: Batch, kind: Kind): set<nat> {
    set i | 0 <= i < |batch.Of(kind)| && Pinned(errors, batch, kind, i)
  }

  /** The positions a 422 pins to events, or None if any error is not about one event. */
  function InvalidPositions(detail: Option<seq<Option<seq<LocPart>>>>, batch: Batch): Option<Positions> {
    if detail.None? || detail.value == [] then None
    else if exists k :: 0 <= k < |detail.value| && !GoodLoc(detail.value[k], batch) then None
    else Some(map kind | kind in KINDS && PinnedIn(detail.value, batch, kind) != {} :: PinnedIn(detail.value, batch, kind))
  }

  method ReadConflicts(raw: Option<map<string, Option<seq<Value>>>>, batch: Batch) returns (found: Option<Positions>)
    ensures found == ConflictPositions(raw, batch)
  {
    if raw.None? || raw.value == map[] { return None; }
    var lists := raw.value;
    var positions: Positions := map[];
    var todo := lists.Keys;
    while todo != {}
      invariant todo <= lists.Keys
      invariant forall name :: name in lists.Keys - todo ==> GoodList(name, lists[name], batch)
      invariant forall kind :: kind in positions <==> NameOf(kind) in lists.Keys - todo
      invariant forall kind :: kind in positions ==> positions[kind] == Ints(lists[NameOf(kind)].value)
    {
      var name :| name in todo;
      var kind := KindOf(name);
      if kind.None? || lists[name].None? || lists[name].value == [] { return None; }
      var values := lists[name].value;
      for i := 0 to |values|
        invariant forall j :: 0 <= j < i ==> GoodPosition(values[j], |batch.Of(kind.value)|)
      {
        if !GoodPosition(values[i], |batch.Of(kind.value)|) { return None; }
      }
      KindNames(name);
      positions := positions[kind.value := Ints(values)];
      todo := todo - {name};
    }
    AllKinds();
    assert positions == ConflictPositions(raw, batch).value;
    found := Some(positions);
  }

  method ReadInvalid(detail: Option<seq<Option<seq<LocPart>>>>, batch: Batch) returns (found: Option<Positions>)
    ensures found == InvalidPositions(detail, batch)
  {
    if detail.None? || detail.value == [] { return None; }
    var errors := detail.value;
    var positions: Positions := map[];
    for k := 0 to |errors|
      invariant forall j :: 0 <= j < k ==> GoodLoc(errors[j], batch)
      invariant forall kind :: kind in positions ==> positions[kind] != {}
      invariant forall kind, i :: i in At(positions, kind) <==> exists j :: 0 <= j < k && Names(errors[j], batch, kind, i)
    {
      if !GoodLoc(errors[k], batch) { return None; }
      var kind := KindOf(errors[k].value[1].text).value;
      var index: nat := errors[k].value[2].n;
      ghost var before := positions;
      positions := positions[kind := At(positions, kind) + {index}];
      forall other, i ensures i in At(positions, other) <==> exists j :: 0 <= j < k + 1 && Names(errors[j], batch, other, i) {
        assert i in At(positions, other) <==> i in At(before, other) || (other == kind && i == index);
        assert Names(errors[k], batch, other, i) <==> other == kind && i == index;
        assert i in At(before, other) <==> exists j :: 0 <= j < k && Names(errors[j], batch, other, i);
      }
    }
    SamePositions(errors, batch, positions);
    found := Some(positions);
  }

  lemma SamePositions(errors: seq<Option<seq<LocPart>>>, batch: Batch, positions: Positions)
    requires errors != [] && forall j :: 0 <= j < |errors| ==> GoodLoc(errors[j], batch)
    requires forall kind :: kind in positions ==> positions[kind] != {}
    requires forall kind, i :: i in At(positions, kind) <==> exists j :: 0 <= j < |errors| && Names(errors[j], batch, kind, i)
    ensures InvalidPositions(Some(errors), batch) == Some(positions)
  {
    forall kind ensures At(positions, kind) == PinnedIn(errors, batch, kind) {
      forall i ensures i in At(positions, kind) <==> i in PinnedIn(errors, batch, kind) {
        assert Pinned(errors, batch, kind, i) <==> exists j :: 0 <= j < |errors| && Names(errors[j], batch, kind, i);
      }
    }
    AllKinds();
    assert positions == InvalidPositions(Some(errors), batch).value;
  }

  lemma KindNames(name: string)
    ensures KindOf(name).Some? ==> NameOf(KindOf(name).value) == name
    ensures forall kind :: KindOf(NameOf(kind)) == Some(kind)
  {
  }

  // ----- one request -----

  function OutcomeOf(reply: Reply, batch: Batch): Outcome {
    match reply
    case ConnectionFailed => Failed(Retryable)
    case ClientFailed => Failed(Other)
    case Answer(status, body) =>
      if status == 200 then
        if body.None? || body.value.status != "success" then Failed(Retryable)
        else Accepted(body.value.inserted, body.value.duplicates)
      else if status == 409 then
        var conflicts := if body.Some? && body.value.code == "event_conflict" then body.value.conflicts else None;
        (match ConflictPositions(conflicts, batch) case Some(p) => Conflict(p) case None => Failed(Permanent))
      else if status == 422 then
        (match InvalidPositions(if body.Some? then body.value.detail else None, batch)
         case Some(p) => Invalid(p) case None => Failed(Config))
      else Failed(FailureFor(status))
  }

  // ----- what a reply says, read off the reply alone -----

  /** The server has stored the batch: a 200 whose body says "success". */
  predicate Succeeded(reply: Reply) {
    reply.Answer? && reply.status == 200 && reply.body.Some? && reply.body.value.status == "success"
  }

  /** A 409 with the conflict code lists this position under the kind's name. */
  predicate Reports409(reply: Reply, kind: Kind, i: nat) {
    && reply.Answer? && reply.status == 409 && reply.body.Some? && reply.body.value.code == "event_conflict"
    && reply.body.value.conflicts.Some? && NameOf(kind) in reply.body.value.conflicts.value
    && var values := reply.body.value.conflicts.value[NameOf(kind)];
       values.Some? && Int(i) in values.value
  }

  predicate LocatesEvent(loc: Option<seq<LocPart>>, kind: Kind, i: nat) {
    loc.Some? && |loc.value| >= 3 && loc.value[0] == Name("body") && loc.value[1] == Name(NameOf(kind)) && loc.value[2] == Index(i)
  }

  /** A 422 has an error at this position of the kind's list. */
  predicate Reports422(reply: Reply, kind: Kind, i: nat) {
    && reply.Answer? && reply.status == 422 && reply.body.Some? && reply.body.value.detail.Some?
    && exists k :: 0 <= k < |reply.body.value.detail.value| && LocatesEvent(reply.body.value.detail.value[k], kind, i)
  }

  predicate Reports(reply: Reply, kind: Kind, i: nat) {
    Reports409(reply, kind, i) || Reports422(reply, kind, i)
  }

  /** The category of a reply that neither stores the batch nor names events of it. */
  predicate Categorised(reply: Reply, category: Category) {
    match reply
    case ConnectionFailed => category == Retryable
    case ClientFailed => category == Other
    case Answer(status, _) =>
      && (status in {401, 403} ==> category == Auth)
      && (status in {404, 405, 422} ==> category == Config)
      && (status in {400, 409, 413} ==> category == Permanent)
      && (status in {200, 429} || 500 <= status <= 599 ==> category == Retryable)
      && (status !in {200, 400, 401, 403, 404, 405, 409, 413, 422, 429} && !(500 <= status <= 599) ==> category == Other)
  }

  /** A 409 with the conflict code and at least one list: each list has one of the three names, is not empty and
      holds nothing but positions of the batch. */
  predicate Usable409(reply: Reply, batch: Batch) {
    && reply.Answer? && reply.status == 409 && reply.body.Some? && reply.body.value.code == "event_conflict"
    && reply.body.value.conflicts.Some? && reply.body.value.conflicts.value != map[]
    && forall name :: name in reply.body.value.conflicts.value ==>
         var values := reply.body.value.conflicts.value[name];
         values.Some? && values.value != []
         && exists kind :: name == NameOf(kind)
              && forall v :: v in values.value ==> exists i: nat :: i < |batch.Of(kind)| && v == Int(i)
  }

  /** The location is that of an event of the batch. */
  predicate LocatesSome(loc: Option<seq<LocPart>>, batch: Batch) {
    exists kind, i: nat :: i < |batch.Of(kind)| && LocatesEvent(loc, kind, i)
  }

  /** A 422 with at least one error, each of which locates one event of the batch. */
  predicate Usable422(reply: Reply, batch: Batch) {
    && reply.Answer? && reply.status == 422 && reply.body.Some?
    && reply.body.value.detail.Some? && reply.body.value.detail.value != []
    && forall k :: 0 <= k < |reply.body.value.detail.value| ==> LocatesSome(reply.body.value.detail.value[k], batch)
  }

  /** An accepted batch is one the server has stored; a refusal is a usable 409 or 422, and its positions are exactly
      the reported ones; any other reply fails with its category. */
  ghost predicate SaysOf(reply: Reply, batch: Batch, outcome: Outcome) {
    && (outcome.Accepted? <==> Succeeded(reply))
    && (outcome.Accepted? ==> outcome == Accepted(reply.body.value.inserted, reply.body.value.duplicates))
    && (outcome.Conflict? <==> Usable409(reply, batch))
    && (outcome.Conflict? ==> forall kind, i: nat :: i in At(outcome.positions, kind) <==> Reports409(reply, kind, i))
    && (outcome.Invalid? <==> Usable422(reply, batch))
    && (outcome.Invalid? ==> forall kind, i: nat :: i in At(outcome.positions, kind) <==> Reports422(reply, kind, i))
    && (outcome.Failed? ==> Categorised(reply, outcome.category))
  }

  lemma GoodListSays(name: string, values: Option<seq<Value>>, batch: Batch)
    ensures GoodList(name, values, batch) <==>
      values.Some? && values.value != []
      && exists kind :: name == NameOf(kind) && forall v :: v in values.value ==> exists i: nat :: i < |batch.Of(kind)| && v == Int(i)
  {
    KindNames(name);
    if GoodList(name, values, batch) {
      var kind := KindOf(name).value;
      forall v | v in values.value ensures exists i: nat :: i < |batch.Of(kind)| && v == Int(i) {
        var k :| 0 <= k < |values.value| && values.value[k] == v;
        assert GoodPosition(values.value[k], |batch.Of(kind)|) && v == Int(v.n);
      }
    } else if exists kind :: name == NameOf(kind) {
      var kind :| name == NameOf(kind);
      if values.Some? && values.value != [] {
        var k :| 0 <= k < |values.value| && !GoodPosition(values.value[k], |batch.Of(kind)|);
        assert values.value[k] in values.value;
      }
    }
  }

  lemma GoodLocSays(loc: Option<seq<LocPart>>, batch: Batch)
    ensures GoodLoc(loc, batch) <==> LocatesSome(loc, batch)
    ensures GoodLoc(loc, batch) ==> forall kind, i: nat :: Names(loc, batch, kind, i) <==> LocatesEvent(loc, kind, i)
  {
    if GoodLoc(loc, batch) {
      KindNames(loc.value[1].text);
      assert LocatesEvent(loc, KindOf(loc.value[1].text).value, loc.value[2].n);
    }
    if exists kind, i: nat :: i < |batch.Of(kind)| && LocatesEvent(loc, kind, i) {
      var kind, i: nat :| i < |batch.Of(kind)| && LocatesEvent(loc, kind, i);
      KindNames(NameOf(kind));
    }
  }

  lemma ConflictSays(reply: Reply, batch: Batch)
    requires reply.Answer? && reply.status == 409
    ensures OutcomeOf(reply, batch).Conflict? <==> Usable409(reply, batch)
    ensures OutcomeOf(reply, batch).Conflict? ==>
      forall kind, i: nat :: i in At(OutcomeOf(reply, batch).positions, kind) <==> Reports409(reply, kind, i)
  {
    hide GoodList;
    if reply.body.Some? && reply.body.value.code == "event_conflict" && reply.body.value.conflicts.Some? {
      var raw := reply.body.value.conflicts.value;
      forall name | name in raw { GoodListSays(name, raw[name], batch); }
      AllKinds();
      if GoodConflicts(Some(raw), batch) {
        forall kind, i: nat ensures i in At(OutcomeOf(reply, batch).positions, kind) <==> Reports409(reply, kind, i) {
          if NameOf(kind) in raw { assert i in Ints(raw[NameOf(kind)].value) <==> Int(i) in raw[NameOf(kind)].value; }
        }
      }
    }
  }

  lemma InvalidSays(reply: Reply, batch: Batch)
    requires reply.Answer? && reply.status == 422
    ensures OutcomeOf(reply, batch).Invalid? <==> Usable422(reply, batch)
    ensures OutcomeOf(reply, batch).Invalid? ==>
      forall kind, i: nat :: i in At(OutcomeOf(reply, batch).positions, kind) <==> Reports422(reply, kind, i)
  {
    hide GoodLoc, LocatesEvent, LocatesSome, Names;
    if reply.body.Some? && reply.body.value.detail.Some? {
      var errors := reply.body.value.detail.value;
      forall k | 0 <= k < |errors|
        ensures GoodLoc(errors[k], batch) <==> LocatesSome(errors[k], batch)
        ensures GoodLoc(errors[k], batch) ==>
          forall kind, i: nat :: Names(errors[k], batch, kind, i) <==> LocatesEvent(errors[k], kind, i)
      {
        GoodLocSays(errors[k], batch);
      }
      assert Usable422(reply, batch) <==> errors != [] && forall k :: 0 <= k < |errors| ==> GoodLoc(errors[k], batch);
      if Usable422(reply, batch) {
        AllKinds();
        forall kind, i: nat ensures i in At(OutcomeOf(reply, batch).positions, kind) <==> Reports422(reply, kind, i) {
          PinnedInside(errors, batch, kind, i);
        }
      }
    }
  }

  lemma PinnedInside(errors: seq<Option<seq<LocPart>>>, batch: Batch, kind: Kind, i: nat)
    ensures i in PinnedIn(errors, batch, kind) <==> exists k :: 0 <= k < |errors| && Names(errors[k], batch, kind, i)
  {
  }

  /** Every outcome is what the reply says. */
  lemma OutcomeSays(reply: Reply, batch: Batch)
    ensures SaysOf(reply, batch, OutcomeOf(reply, batch))
  {
    hide ConflictPositions, InvalidPositions;
    if reply.Answer? && reply.status == 409 {
      hide Usable422;
      ConflictSays(reply, batch);
    } else if reply.Answer? && reply.status == 422 {
      hide Usable409;
      InvalidSays(reply, batch);
    }
  }

  method PostBatch(reply: Reply, batch: Batch) returns (outcome: Outcome)
    ensures outcome == OutcomeOf(reply, batch) && SaysOf(reply, batch, outcome)
  {
    hide GoodConflicts, GoodLoc, SaysOf, ConflictPositions, InvalidPositions;
    OutcomeSays(reply, batch);
    match reply {
      case ConnectionFailed => return Failed(Retryable);
      case ClientFailed => return Failed(Other);
      case Answer(status, body) =>
        if status == 200 {
          if body.None? || body.value.status != "success" { return Failed(Retryable); }
          return Accepted(body.value.inserted, body.value.duplicates);
        }
        if status == 409 {
          var positions := ReadConflicts(
            if body.Some? && body.value.code == "event_conflict" then body.value.conflicts else None, batch);
          if positions.None? { return Failed(Permanent); }
          return Conflict(positions.value);
        }
        if status == 422 {
          var positions := ReadInvalid(if body.Some? then body.value.detail else None, batch);
          if positions.None? { return Failed(Config); }
          return Invalid(positions.value);
        }
        return Failed(FailureFor(status));
    }
  }

  predicate Refuses(outcome: Outcome) {
    outcome.Conflict? || outcome.Invalid?
  }

  function PositionsOf(outcome: Outcome): Positions
    requires Refuses(outcome)
  {
    outcome.positions
  }

  function ReasonOf(outcome: Outcome): Reason {
    if outcome.Conflict? then EventConflict else InvalidEvent
  }

  /** A usable refusal always removes something: the batch shrinks. */
  lemma RefusalShrinks(reply: Reply, batch: Batch)
    requires Refuses(OutcomeOf(reply, batch))
    ensures Removed(batch, PositionsOf(OutcomeOf(reply, batch))) != []
  {
    hide OutcomeOf, Dropped;
    var p := PositionsOf(OutcomeOf(reply, batch));
    var kind, i := ReportedPosition(reply, batch);
    DroppedCount(batch.Of(kind), At(p, kind));
    assert i in InRange(At(p, kind), |batch.Of(kind)|);
  }

  lemma ReportedPosition(reply: Reply, batch: Batch) returns (kind: Kind, i: nat)
    requires Refuses(OutcomeOf(reply, batch))
    ensures i in At(PositionsOf(OutcomeOf(reply, batch)), kind) && i < |batch.Of(kind)|
  {
    if OutcomeOf(reply, batch).Conflict? {
      var raw := reply.body.value.conflicts.value;
      var name :| name in raw;
      assert GoodList(name, raw[name], batch);
      KindNames(name);
      kind, i := KindOf(name).value, raw[name].value[0].n;
      assert GoodPosition(raw[name].value[0], |batch.Of(kind)|);
      AllKinds();
    } else {
      var errors := reply.body.value.detail.value;
      assert GoodLoc(errors[0], batch);
      kind, i := KindOf(errors[0].value[1].text).value, errors[0].value[2].n;
      assert Names(errors[0], batch, kind, i);
      assert i in PinnedIn(errors, batch, kind);
      AllKinds();
    }
  }

  // ----- the delivery loop -----

  const MAX_ROUNDS := 60

  datatype Round = Round(reason: Reason, removed: seq<SafeEvent>)

  function RefusedIn(rounds: seq<Round>): seq<SafeEvent> {
    if rounds == [] then [] else RefusedIn(rounds[..|rounds| - 1]) + rounds[|rounds| - 1].removed
  }

  function QuarantineEntries(removed: seq<SafeEvent>, reason: Reason, day: int): (entries: seq<Entry>)
    ensures |entries| == |removed|
    ensures forall i :: 0 <= i < |removed| ==>
      entries[i] == Entry(removed[i].kind, removed[i].eventKey, removed[i].time, reason, day)
  {
    seq(|removed|, i requires 0 <= i < |removed| => Entry(removed[i].kind, removed[i].eventKey, removed[i].time, reason, day))
  }

  /** The quarantine after each round's removed events were added. */
  function AfterRounds(entries: seq<Entry>, rounds: seq<Round>, today: int, limits: Bounds): seq<Entry> {
    if rounds == [] then entries
    else
      var last := rounds[|rounds| - 1];
      Added(AfterRounds(entries, rounds[..|rounds| - 1], today, limits),
            QuarantineEntries(last.removed, last.reason, today), today, limits)
  }

  // ----- the refused events are listed afterwards -----

  /** The quarantine's operations: one add a round, all on the run's day. */
  function OpsOf(rounds: seq<Round>, today: int): (ops: seq<Op>)
    ensures |ops| == |rounds|
    ensures forall r :: 0 <= r < |rounds| ==> ops[r] == Op(today, QuarantineEntries(rounds[r].removed, rounds[r].reason, today))
  {
    seq(|rounds|, r requires 0 <= r < |rounds| => Op(today, QuarantineEntries(rounds[r].removed, rounds[r].reason, today)))
  }

  lemma {:induction false} RoundsAreOps(entries: seq<Entry>, rounds: seq<Round>, today: int, limits: Bounds)
    ensures AfterRounds(entries, rounds, today, limits) == After(entries, OpsOf(rounds, today), limits)
    ensures OpsInOrder(OpsOf(rounds, today))
  {
    hide Added;
    if rounds != [] {
      var init := rounds[..|rounds| - 1];
      RoundsAreOps(entries, init, today, limits);
      assert OpsOf(rounds, today)[..|rounds| - 1] == OpsOf(init, today);
    }
  }

  /** What is quarantined of an event that round r refused, on a given day. */
  function RefusedEntry(rounds: seq<Round>, r: nat, k: nat, today: int): Entry
    requires r < |rounds| && k < |rounds[r].removed|
  {
    var e := rounds[r].removed[k];
    Entry(e.kind, e.eventKey, e.time, rounds[r].reason, today)
  }

  /** The store just before the k-th event of round r is added. */
  function StoreBefore(entries: seq<Entry>, rounds: seq<Round>, r: nat, k: nat, today: int, limits: Bounds): seq<Entry>
    requires r < |rounds| && k < |rounds[r].removed|
  {
    var store := AfterRounds(entries, rounds[..r], today, limits);
    store + Appended(store, QuarantineEntries(rounds[r].removed[..k], rounds[r].reason, today))
  }

  /** Each refused event is recorded with its reason, time and day unless its event was listed already, and after the
      last round it is listed exactly if a record of it is within retention and fewer such records than the cap
      come after that one. */
  lemma RefusedListedExactly(entries: seq<Entry>, rounds: seq<Round>, today: int, limits: Bounds, r: nat, k: nat)
    requires r < |rounds| && k < |rounds[r].removed|
    requires Dated(entries) && NoRepeats(entries) && forall i :: 0 <= i < |entries| ==> entries[i].day <= today
    ensures
      var entry := RefusedEntry(rounds, r, k, today);
      var history := History(entries, OpsOf(rounds, today), limits);
      Listed(history, entry)
      && (!Listed(StoreBefore(entries, rounds, r, k, today, limits), entry) ==> entry in history)
      && (Skipped(AfterRounds(entries, rounds, today, limits), rounds[r].removed[k]) <==>
            exists j :: 0 <= j < |history| && SameEvent(history[j], entry) && Survives(history, j, today, limits))
  {
    hide Appended, Added, Survives, Dated, NoRepeats, OpsInOrder;
    var ops := OpsOf(rounds, today);
    var entry := RefusedEntry(rounds, r, k, today);
    RoundsAreOps(entries, rounds, today, limits);
    RoundsAreOps(entries, rounds[..r], today, limits);
    assert ops[..r] == OpsOf(rounds[..r], today);
    assert ops[r].incoming[..k] == QuarantineEntries(rounds[r].removed[..k], rounds[r].reason, today);
    HistoryLists(entries, ops, limits, r, k);
    StoreListsExactly(entries, ops, limits, entry);
    SkippedIsListed(AfterRounds(entries, rounds, today, limits), rounds[r].removed[k], entry);
  }

  /** The store is within retention and has room for n more. */
  predicate HasRoom(entries: seq<Entry>, n: nat, today: int, limits: Bounds) {
    |entries| + n <= limits.maxEntries && forall i :: 0 <= i < |entries| ==> entries[i].day >= today - limits.retentionDays
  }

  predicate AllSkipped(entries: seq<Entry>, events: seq<SafeEvent>) {
    forall e :: e in events ==> Skipped(entries, e)
  }

  /** With room for them, every refused event is listed. */
  predicate RefusedKept(before: seq<Entry>, after: seq<Entry>, rounds: seq<Round>, today: int, limits: Bounds) {
    HasRoom(before, |RefusedIn(rounds)|, today, limits) ==> AllSkipped(after, RefusedIn(rounds))
  }

  /** So it is after the last round. */
  lemma {:induction false} RefusedAreListed(entries: seq<Entry>, rounds: seq<Round>, today: int, limits: Bounds)
    requires HasRoom(entries, |RefusedIn(rounds)|, today, limits)
    ensures AllSkipped(AfterRounds(entries, rounds, today, limits), RefusedIn(rounds))
    ensures HasRoom(AfterRounds(entries, rounds, today, limits), 0, today, limits)
    ensures |AfterRounds(entries, rounds, today, limits)| <= |entries| + |RefusedIn(rounds)|
  {
    hide Added, Appended, Skipped, Listed;
    if rounds != [] {
      var init, last := rounds[..|rounds| - 1], rounds[|rounds| - 1];
      RefusedAreListed(entries, init, today, limits);
      var store := AfterRounds(entries, init, today, limits);
      var incoming := QuarantineEntries(last.removed, last.reason, today);
      RoomPrunesNothing(store, incoming, today, limits);
      forall e | e in RefusedIn(rounds) ensures Skipped(Added(store, incoming, today, limits), e) {
        if e in RefusedIn(init) {
          MoreSkipped(store, Appended(store, incoming), e);
        } else {
          var k :| 0 <= k < |last.removed| && last.removed[k] == e;
          AppendedLists(store, incoming, k);
          SkippedIsListed(store + Appended(store, incoming), e, incoming[k]);
        }
      }
    }
  }

  lemma MoreSkipped(entries: seq<Entry>, more: seq<Entry>, e: SafeEvent)
    requires Skipped(entries, e)
    ensures Skipped(entries + more, e)
  {
    var i :| 0 <= i < |entries| && entries[i].kind == e.kind && entries[i].eventKey == e.eventKey;
    assert (entries + more)[i] == entries[i];
  }

  lemma SkippedIsListed(entries: seq<Entry>, e: SafeEvent, entry: Entry)
    requires entry.kind == e.kind && entry.eventKey == e.eventKey
    ensures Skipped(entries, e) <==> Listed(entries, entry)
  {
    if Skipped(entries, e) {
      var i :| 0 <= i < |entries| && entries[i].kind == e.kind && entries[i].eventKey == e.eventKey;
      assert SameEvent(entries[i], entry);
    }
    if Listed(entries, entry) {
      var i := ListedAt(entries, entry);
    }
  }

  function CountIf(events: seq<SafeEvent>, refuses: SafeEvent -> bool): (n: nat)
    ensures n <= |events|
  {
    if events == [] then 0
    else CountIf(events[..|events| - 1], refuses) + if refuses(events[|events| - 1]) then 1 else 0
  }

  function CountRefused(batch: Batch, refuses: SafeEvent -> bool): (n: nat)
    ensures n <= batch.Size()
  {
    CountIf(batch.checkins, refuses) + CountIf(batch.rejects, refuses) + CountIf(batch.acsItems, refuses)
  }

  function Least(a: nat, b: nat): nat {
    if a < b then a else b
  }

  /** A server that refuses some events for good, and whose refusals report only such events and at least 50
      of them, or all that are left. */
  ghost predicate Reports50(server: seq<Batch> -> Reply, refuses: SafeEvent -> bool) {
    forall history: seq<Batch>, batch: Batch ::
      var outcome := OutcomeOf(server(history + [batch]), batch);
      Refuses(outcome) ==>
        var removed := Removed(batch, PositionsOf(outcome));
        CountIf(removed, refuses) == |removed| && |removed| >= Least(50, CountRefused(batch, refuses))
  }

  lemma {:induction false} CountConcat(a: seq<SafeEvent>, b: seq<SafeEvent>, refuses: SafeEvent -> bool)
    ensures CountIf(a + b, refuses) == CountIf(a, refuses) + CountIf(b, refuses)
  {
    if b == [] {
      assert a + b == a;
    } else {
      CountConcat(a, b[..|b| - 1], refuses);
      assert (a + b)[..|a + b| - 1] == a + b[..|b| - 1];
    }
  }

  lemma {:induction false} CountSplit(events: seq<SafeEvent>, drop: set<nat>, refuses: SafeEvent -> bool)
    ensures CountIf(Kept(events, drop), refuses) + CountIf(Dropped(events, drop), refuses) == CountIf(events, refuses)
  {
    if events != [] {
      var n := |events| - 1;
      CountSplit(events[..n], drop, refuses);
      CountConcat(Kept(events[..n], drop), [events[n]], refuses);
      CountConcat(Dropped(events[..n], drop), [events[n]], refuses);
      assert [events[n]][..0] == [];
    }
  }

  /** Removing events takes exactly their refusable ones out of what is left. */
  lemma RestRefused(batch: Batch, positions: Positions, refuses: SafeEvent -> bool)
    ensures CountRefused(Rest(batch, positions), refuses) + CountIf(Removed(batch, positions), refuses)
         == CountRefused(batch, refuses)
  {
    hide Kept, Dropped, CountIf;
    CountSplit(batch.checkins, At(positions, Checkins), refuses);
    CountSplit(batch.rejects, At(positions, Rejects), refuses);
    CountSplit(batch.acsItems, At(positions, AcsItems), refuses);
    var c, r, a := Dropped(batch.checkins, At(positions, Checkins)), Dropped(batch.rejects, At(positions, Rejects)),
                   Dropped(batch.acsItems, At(positions, AcsItems));
    CountConcat(c + r, a, refuses);
    CountConcat(c, r, refuses);
  }

  /** What the server acknowledged in the requests after the first `from`, as its replies say. */
  function AckedBy(server: seq<Batch> -> Reply, sent: seq<Batch>, from: nat): multiset<SafeEvent> {
    if |sent| <= from then multiset{}
    else
      var last := sent[|sent| - 1];
      AckedBy(server, sent[..|sent| - 1], from)
      + if OutcomeOf(server(sent), last).Accepted? then last.Contents() else multiset{}
  }

  /** The refused rounds among the requests after the first `from`, as the server's replies say. */
  function RoundsOf(server: seq<Batch> -> Reply, sent: seq<Batch>, from: nat): seq<Round> {
    if |sent| <= from then []
    else
      var last := sent[|sent| - 1];
      var outcome := OutcomeOf(server(sent), last);
      RoundsOf(server, sent[..|sent| - 1], from)
      + if Refuses(outcome) then [Round(ReasonOf(outcome), Removed(last, PositionsOf(outcome)))] else []
  }

  /** The event was in a request after the first `from` whose reply says that the server has stored the batch. */
  ghost predicate Stored(server: seq<Batch> -> Reply, sent: seq<Batch>, from: nat, e: SafeEvent) {
    exists j :: from <= j < |sent| && e in sent[j].Contents() && Succeeded(server(sent[..j + 1]))
  }

  /** The event stood at a position that the reply to its request reports. */
  ghost predicate Reported(server: seq<Batch> -> Reply, sent: seq<Batch>, from: nat, e: SafeEvent) {
    exists j, kind, i: nat :: from <= j < |sent| && i < |sent[j].Of(kind)| && sent[j].Of(kind)[i] == e
      && Reports(server(sent[..j + 1]), kind, i)
  }

  lemma AcceptedSays(reply: Reply, batch: Batch)
    ensures OutcomeOf(reply, batch).Accepted? <==> Succeeded(reply)
  {
    hide ConflictPositions, InvalidPositions;
  }

  /** One request more. */
  lemma StoredStep(server: seq<Batch> -> Reply, sent: seq<Batch>, from: nat, e: SafeEvent)
    requires |sent| > from
    ensures
      var last := sent[|sent| - 1];
      Stored(server, sent, from, e)
      <==> Stored(server, sent[..|sent| - 1], from, e) || (e in last.Contents() && Succeeded(server(sent)))
  {
    hide Batch.Contents, Succeeded;
    var n := |sent| - 1;
    assert sent[..n + 1] == sent;
    if Stored(server, sent[..n], from, e) {
      var j :| from <= j < n && e in sent[..n][j].Contents() && Succeeded(server(sent[..n][..j + 1]));
      assert sent[..n][..j + 1] == sent[..j + 1];
      assert e in sent[j].Contents() && Succeeded(server(sent[..j + 1]));
    }
    if Stored(server, sent, from, e) {
      var j :| from <= j < |sent| && e in sent[j].Contents() && Succeeded(server(sent[..j + 1]));
      if j < n {
        assert sent[..n][..j + 1] == sent[..j + 1];
        assert e in sent[..n][j].Contents() && Succeeded(server(sent[..n][..j + 1]));
      }
    }
  }

  /** The acknowledged events are exactly those of the requests that the server says it has stored. */
  lemma {:induction false} AckedIsStored(server: seq<Batch> -> Reply, sent: seq<Batch>, from: nat, e: SafeEvent)
    ensures e in AckedBy(server, sent, from) <==> Stored(server, sent, from, e)
  {
    hide OutcomeOf, Batch.Contents, Succeeded, Stored;
    if |sent| > from {
      var n := |sent| - 1;
      AckedIsStored(server, sent[..n], from, e);
      AcceptedSays(server(sent), sent[n]);
      StoredStep(server, sent, from, e);
    } else {
      assert !Stored(server, sent, from, e) by { NothingSent(server, sent, from, e); }
    }
  }

  lemma NothingSent(server: seq<Batch> -> Reply, sent: seq<Batch>, from: nat, e: SafeEvent)
    requires |sent| <= from
    ensures !Stored(server, sent, from, e)
  {
  }

  lemma RemovedIsReported(reply: Reply, batch: Batch, e: SafeEvent) returns (kind: Kind, i: nat)
    requires Refuses(OutcomeOf(reply, batch)) && e in Removed(batch, PositionsOf(OutcomeOf(reply, batch)))
    ensures i < |batch.Of(kind)| && batch.Of(kind)[i] == e && Reports(reply, kind, i)
  {
    hide OutcomeOf, Dropped, Reports409, Reports422, Usable409, Usable422, Succeeded, At;
    var p := PositionsOf(OutcomeOf(reply, batch));
    OutcomeSays(reply, batch);
    kind := if e in Dropped(batch.checkins, At(p, Checkins)) then Checkins
            else if e in Dropped(batch.rejects, At(p, Rejects)) then Rejects else AcsItems;
    var at := DroppedInOrder(batch.Of(kind), At(p, kind));
    var k :| 0 <= k < |at| && Dropped(batch.Of(kind), At(p, kind))[k] == e;
    i := at[k];
  }

  lemma ReportedBefore(server: seq<Batch> -> Reply, sent: seq<Batch>, n: nat, from: nat, e: SafeEvent)
    requires n <= |sent| && Reported(server, sent[..n], from, e)
    ensures Reported(server, sent, from, e)
  {
    hide Reports, Batch.Of;
    var j, kind, i: nat :| from <= j < n && i < |sent[..n][j].Of(kind)| && sent[..n][j].Of(kind)[i] == e
      && Reports(server(sent[..n][..j + 1]), kind, i);
    assert sent[..n][..j + 1] == sent[..j + 1] && sent[..n][j] == sent[j];
  }

  lemma ReportedLast(server: seq<Batch> -> Reply, sent: seq<Batch>, from: nat, e: SafeEvent)
    requires |sent| > from
    requires
      var outcome := OutcomeOf(server(sent), sent[|sent| - 1]);
      Refuses(outcome) && e in Removed(sent[|sent| - 1], PositionsOf(outcome))
    ensures Reported(server, sent, from, e)
  {
    hide Reports, Batch.Of, OutcomeOf, Removed;
    var n := |sent| - 1;
    var kind, i := RemovedIsReported(server(sent), sent[n], e);
    assert sent[..n + 1] == sent;
    assert sent[n].Of(kind)[i] == e && Reports(server(sent[..n + 1]), kind, i);
  }

  /** Every refused event stood at a position that the reply to its request reports. */
  lemma {:induction false} RefusedIsReported(server: seq<Batch> -> Reply, sent: seq<Batch>, from: nat, e: SafeEvent)
    requires e in RefusedIn(RoundsOf(server, sent, from))
    ensures Reported(server, sent, from, e)
  {
    hide OutcomeOf, Removed, Reported;
    if |sent| > from {
      var n := |sent| - 1;
      var rounds := RoundsOf(server, sent[..n], from);
      if Refuses(OutcomeOf(server(sent), sent[n])) {
        var outcome := OutcomeOf(server(sent), sent[n]);
        MoreRefusedOne(rounds, Round(ReasonOf(outcome), Removed(sent[n], PositionsOf(outcome))));
      } else {
        assert rounds + [] == rounds;
      }
      if e in RefusedIn(rounds) {
        RefusedIsReported(server, sent[..n], from, e);
        ReportedBefore(server, sent, n, from, e);
      } else {
        ReportedLast(server, sent, from, e);
      }
    }
  }

  /** The request of a round: its reply refuses the batch, the round's reason tells the 409 from the 422, and what it
      removed are the events at the reported positions. */
  ghost predicate RoundOf(reply: Reply, batch: Batch, round: Round) {
    && (round.reason == EventConflict <==> Usable409(reply, batch)) && (round.reason == InvalidEvent <==> Usable422(reply, batch))
    && forall e :: e in round.removed ==>
         exists kind, i: nat :: i < |batch.Of(kind)| && batch.Of(kind)[i] == e && Reports(reply, kind, i)
  }

  lemma RefusalIsRound(reply: Reply, batch: Batch)
    requires Refuses(OutcomeOf(reply, batch))
    ensures RoundOf(reply, batch, Round(ReasonOf(OutcomeOf(reply, batch)), Removed(batch, PositionsOf(OutcomeOf(reply, batch)))))
  {
    hide OutcomeOf, Removed, Usable409, Usable422, Reports, Categorised, Succeeded;
    OutcomeSays(reply, batch);
    var removed := Removed(batch, PositionsOf(OutcomeOf(reply, batch)));
    forall e | e in removed ensures exists kind, i: nat :: i < |batch.Of(kind)| && batch.Of(kind)[i] == e && Reports(reply, kind, i) {
      var kind, i := RemovedIsReported(reply, batch, e);
    }
  }

  /** Every round is that of some request. */
  lemma {:induction false} RoundIsRequest(server: seq<Batch> -> Reply, sent: seq<Batch>, from: nat, r: nat) returns (j: nat)
    requires r < |RoundsOf(server, sent, from)|
    ensures from <= j < |sent| && RoundOf(server(sent[..j + 1]), sent[j], RoundsOf(server, sent, from)[r])
  {
    hide OutcomeOf, Removed, RoundOf;
    var n := |sent| - 1;
    assert sent[..n + 1] == sent;
    if r < |RoundsOf(server, sent[..n], from)| {
      j := RoundIsRequest(server, sent[..n], from, r);
      assert sent[..n][..j + 1] == sent[..j + 1];
    } else {
      j := n;
      RefusalIsRound(server(sent), sent[n]);
    }
  }

  lemma MoreRefusedOne(rounds: seq<Round>, round: Round)
    ensures RefusedIn(rounds + [round]) == RefusedIn(rounds) + round.removed
  {
    assert (rounds + [round])[..|rounds|] == rounds;
  }

  /** The events of one kind in the requests after the first `from`, in the order they were sent. */
  function Carried(sent: seq<Batch>, from: nat, kind: Kind): seq<SafeEvent> {
    if |sent| <= from then [] else Carried(sent[..|sent| - 1], from, kind) + sent[|sent| - 1].Of(kind)
  }

  /** Each kind's events went out once and in order. */
  ghost predicate SentInOrder(sent: seq<Batch>, from: nat, events: seq<SafeEvent>) {
    forall kind :: Carried(sent, from, kind) == OfKind(events, kind)
  }

  lemma ExtendsMore(sent: seq<Batch>, history: seq<Batch>, more: seq<Batch>)
    ensures Extends(history, history)
    ensures Extends(sent, history) ==> |history| <= |sent| && Extends(sent + more, history)
    ensures Extends(sent, history) && Extends(more, sent) ==> Extends(more, history)
  {
    if Extends(sent, history) && Extends(more, sent) {
      assert more[..|history|] == more[..|sent|][..|history|];
    }
  }

  lemma OneMore(server: seq<Batch> -> Reply, sent: seq<Batch>, batch: Batch, from: nat)
    requires from <= |sent|
    ensures var outcome := OutcomeOf(server(sent + [batch]), batch);
      && AckedBy(server, sent + [batch], from)
         == (if outcome.Accepted? then AckedBy(server, sent, from) + batch.Contents() else AckedBy(server, sent, from))
      && RoundsOf(server, sent + [batch], from)
         == (if Refuses(outcome) then RoundsOf(server, sent, from)
                                     + [Round(ReasonOf(outcome), Removed(batch, PositionsOf(outcome)))]
             else RoundsOf(server, sent, from))
  {
    hide OutcomeOf, Removed, Batch.Contents;
    assert (sent + [batch])[..|sent|] == sent;
    assert (sent + [batch])[|sent|] == batch;
  }

  lemma {:induction false} MoreRequests(server: seq<Batch> -> Reply, past: seq<Batch>, sent: seq<Batch>, from: nat)
    requires Extends(sent, past) && from <= |past|
    ensures AckedBy(server, sent, from) == AckedBy(server, past, from) + AckedBy(server, sent, |past|)
    ensures RoundsOf(server, sent, from) == RoundsOf(server, past, from) + RoundsOf(server, sent, |past|)
  {
    hide OutcomeOf, Removed, Batch.Contents;
    if |sent| == |past| {
      assert sent == past;
    } else {
      MoreRequests(server, past, sent[..|sent| - 1], from);
    }
  }

  lemma {:induction false} MoreRefused(a: seq<Round>, b: seq<Round>)
    ensures RefusedIn(a + b) == RefusedIn(a) + RefusedIn(b)
  {
    if b == [] {
      assert a + b == a;
    } else {
      var init, last := b[..|b| - 1], b[|b| - 1];
      MoreRefused(a, init);
      assert (a + b)[..|a + b| - 1] == a + init && (a + b)[|a + b| - 1] == last;
      assert RefusedIn(a) + (RefusedIn(init) + last.removed) == (RefusedIn(a) + RefusedIn(init)) + last.removed;
    }
  }

  lemma {:induction false} MoreRounds(entries: seq<Entry>, a: seq<Round>, b: seq<Round>, today: int, limits: Bounds)
    ensures AfterRounds(entries, a + b, today, limits) == AfterRounds(AfterRounds(entries, a, today, limits), b, today, limits)
  {
    hide Added, QuarantineEntries;
    if b == [] {
      assert a + b == a;
    } else {
      MoreRounds(entries, a, b[..|b| - 1], today, limits);
      assert (a + b)[..|a + b| - 1] == a + b[..|b| - 1] && (a + b)[|a + b| - 1] == b[|b| - 1];
    }
  }

  /** How one batch ended. */
  datatype Ending = Done | Gave(category: Category) | OutOfRounds | NoProgress

  function FailureOf(ending: Ending): Option<Category> {
    match ending
    case Done => None
    case Gave(category) => Some(category)
    case OutOfRounds => Some(Permanent)
    case NoProgress => Some(Permanent)
  }

  ghost predicate Extends(sent: seq<Batch>, history: seq<Batch>) {
    |history| <= |sent| && sent[..|history|] == history
  }

  lemma NextRound(entries: seq<Entry>, rounds: seq<Round>, round: Round, today: int, limits: Bounds)
    ensures RefusedIn(rounds + [round]) == RefusedIn(rounds) + round.removed
    ensures AfterRounds(entries, rounds + [round], today, limits)
         == Added(AfterRounds(entries, rounds, today, limits), QuarantineEntries(round.removed, round.reason, today), today, limits)
  {
    hide Added, QuarantineEntries;
    assert (rounds + [round])[..|rounds|] == rounds;
  }

  /** Quarantines what one round removed. */
  method AddRound(q: Quarantine, round: Round, ghost before: seq<Entry>, ghost rounds: seq<Round>)
    requires !q.readOnly && q.entries == AfterRounds(before, rounds, q.today, q.limits)
    modifies q`entries, q`file
    ensures q.entries == q.file == AfterRounds(before, rounds + [round], q.today, q.limits)
    ensures RefusedIn(rounds + [round]) == RefusedIn(rounds) + round.removed
  {
    hide Added, AfterRounds, RefusedIn, Room, AllListed, OnlyFrom;
    NextRound(before, rounds, round, q.today, q.limits);
    q.Add(QuarantineEntries(round.removed, round.reason, q.today));
  }

  /** Every event of the first batch is still to be sent, acknowledged or refused, once each. */
  ghost predicate Accounted(start: Batch, batch: Batch, acked: multiset<SafeEvent>, rounds: seq<Round>) {
    batch.Contents() + acked + multiset(RefusedIn(rounds)) == start.Contents()
  }

  lemma RefusedAccounted(start: Batch, batch: Batch, rest: Batch, rounds: seq<Round>, round: Round)
    requires Accounted(start, batch, multiset{}, rounds)
    requires rest.Contents() + multiset(round.removed) == batch.Contents()
    ensures Accounted(start, rest, multiset{}, rounds + [round])
  {
    assert (rounds + [round])[..|rounds|] == rounds;
  }

  lemma AckedAccounted(start: Batch, batch: Batch, rounds: seq<Round>)
    requires Accounted(start, batch, multiset{}, rounds)
    ensures multiset{} + batch.Contents() + multiset(RefusedIn(rounds)) == start.Contents()
  {
  }

  lemma NothingLeft(start: Batch, batch: Batch, rounds: seq<Round>)
    requires Accounted(start, batch, multiset{}, rounds)
    ensures multiset{} + multiset(RefusedIn(rounds)) <= start.Contents()
    ensures batch.Size() == 0 ==> multiset{} + multiset(RefusedIn(rounds)) == start.Contents()
  {
  }

  /** How many refusable events can be left after so many refused requests. */
  ghost predicate FewLeft(batch: Batch, refuses: SafeEvent -> bool, most: nat, count: nat) {
    count <= 20 && (CountRefused(batch, refuses) == 0 || CountRefused(batch, refuses) <= most - 50 * count)
  }

  lemma FewerLeft(server: seq<Batch> -> Reply, refuses: SafeEvent -> bool, past: seq<Batch>, batch: Batch,
                  most: nat, count: nat)
    requires Reports50(server, refuses) && most <= 1000 && FewLeft(batch, refuses, most, count)
    requires Refuses(OutcomeOf(server(past + [batch]), batch))
    ensures FewLeft(Rest(batch, PositionsOf(OutcomeOf(server(past + [batch]), batch))), refuses, most, count + 1)
  {
    hide OutcomeOf, Rest, Removed, CountIf, CountRefused;
    var outcome := OutcomeOf(server(past + [batch]), batch);
    RefusalShrinks(server(past + [batch]), batch);
    RestRefused(batch, PositionsOf(outcome), refuses);
  }

  /** Sends one batch until it is accepted, emptied by refusals, or given up. The replies account for every event:
      Done means each was acknowledged or quarantined, and never more are than were given; progress is always
      possible; against a server that reports at least 50 refused events a time, a batch of at most 1000 needs at
      most 21 requests and is never out of rounds. */
  method DeliverBatch(start: Batch, server: seq<Batch> -> Reply, history: seq<Batch>, q: Quarantine,
                      ghost refuses: SafeEvent -> bool)
    returns (ending: Ending, sent: seq<Batch>)
    requires !q.readOnly
    modifies q`entries, q`file
    ensures Extends(sent, history) && |sent| <= |history| + MAX_ROUNDS
    ensures var rounds := RoundsOf(server, sent, |history|);
      && AckedBy(server, sent, |history|) + multiset(RefusedIn(rounds)) <= start.Contents()
      && (ending == Done ==> AckedBy(server, sent, |history|) + multiset(RefusedIn(rounds)) == start.Contents())
      && q.entries == AfterRounds(old(q.entries), rounds, q.today, q.limits)
      && q.file == if rounds == [] then old(q.file) else q.entries
    ensures ending == Done && RoundsOf(server, sent, |history|) == [] ==>
      sent == if start.Size() > 0 then history + [start] else history
    ensures ending != NoProgress
    ensures ending.Gave? ==> sent != [] && OutcomeOf(server(sent), sent[|sent| - 1]) == Failed(ending.category)
    ensures Reports50(server, refuses) && start.Size() <= 1000 ==> ending != OutOfRounds && |sent| <= |history| + 21
  {
    hide OutcomeOf, Rest, Removed, Kept, Dropped, CountIf, CountRefused, Reports50, QuarantineEntries, Added, FewLeft,
      Accounted, RefusedIn, AfterRounds, InRange, At, Batch.Contents, AckedBy, RoundsOf, Extends, SaysOf, ReasonOf;
    ghost var before, m0 := q.entries, CountRefused(start, refuses);
    ghost var rounds: seq<Round> := [];
    var batch := start;
    var count := 0;
    sent := history;
    ExtendsMore(history, history, []);
    NothingYet(start, refuses, before, q.today, q.limits, server, sent);
    while batch.Size() > 0
      invariant Extends(sent, history) && |sent| == |history| + count && count == |rounds| <= MAX_ROUNDS
      invariant rounds == RoundsOf(server, sent, |history|) && AckedBy(server, sent, |history|) == multiset{}
      invariant Accounted(start, batch, multiset{}, rounds)
      invariant rounds == [] ==> batch == start && sent == history
      invariant q.entries == AfterRounds(before, rounds, q.today, q.limits)
      invariant q.file == if rounds == [] then old(q.file) else q.entries
      invariant Reports50(server, refuses) && start.Size() <= 1000 ==> FewLeft(batch, refuses, m0, count)
      decreases batch.Size()
    {
      NothingLeft(start, batch, rounds);
      AtMost20(batch, refuses, m0, count);
      if count + 1 > MAX_ROUNDS { return OutOfRounds, sent; }
      OneMore(server, sent, batch, |history|);
      ExtendsMore(sent, history, [batch]);
      ghost var past := sent;
      count, sent := count + 1, sent + [batch];
      var outcome := PostBatch(server(sent), batch);
      if outcome.Accepted? {
        AckedAccounted(start, batch, rounds);
        return Done, sent;
      }
      assert sent[|sent| - 1] == batch;
      if outcome.Failed? { return Gave(outcome.category), sent; }
      RefusalShrinks(server(sent), batch);
      if Reports50(server, refuses) && start.Size() <= 1000 {
        FewerLeft(server, refuses, past, batch, m0, count - 1);
      }
      var rest, removed := Without(batch, PositionsOf(outcome));
      if removed == [] { return NoProgress, sent; }
      RefusedAccounted(start, batch, rest, rounds, Round(ReasonOf(outcome), removed));
      AddRound(q, Round(ReasonOf(outcome), removed), before, rounds);
      batch, rounds := rest, rounds + [Round(ReasonOf(outcome), removed)];
    }
    NothingLeft(start, batch, rounds);
    AtMost20(batch, refuses, m0, count);
    return Done, sent;
  }

  lemma NothingYet(batch: Batch, refuses: SafeEvent -> bool, entries: seq<Entry>, today: int, limits: Bounds,
                   server: seq<Batch> -> Reply, sent: seq<Batch>)
    ensures FewLeft(batch, refuses, CountRefused(batch, refuses), 0) && Accounted(batch, batch, multiset{}, [])
    ensures AfterRounds(entries, [], today, limits) == entries
    ensures RoundsOf(server, sent, |sent|) == [] && AckedBy(server, sent, |sent|) == multiset{}
  {
  }

  lemma AtMost20(batch: Batch, refuses: SafeEvent -> bool, most: nat, count: nat)
    ensures FewLeft(batch, refuses, most, count) ==> count <= 20
  {
  }

  /** How many slices of a size a list is cut into. */
  function Slices(n: nat, size: nat): nat
    requires size > 0
  {
    if n == 0 then 0 else if n <= size then 1 else 1 + Slices(n - size, size)
  }

  /** How many events are left from a position on. */
  function Left(n: nat, start: nat): nat {
    if start < n then n - start else 0
  }

  lemma LeftFacts(n: nat)
    ensures Left(n, 0) == n && forall start: nat :: start >= n ==> Left(n, start) == 0
  {
  }

  lemma NextSlice(n: nat, start: nat, size: nat)
    requires size > 0 && start < n
    ensures Slices(Left(n, start), size) == 1 + Slices(Left(n, start + size), size)
  {
  }

  /** The events the replies account for: acknowledged, or refused and removed. */
  function Settled(server: seq<Batch> -> Reply, sent: seq<Batch>, from: nat): multiset<SafeEvent> {
    AckedBy(server, sent, from) + multiset(RefusedIn(RoundsOf(server, sent, from)))
  }

  lemma SliceSettled(server: seq<Batch> -> Reply, past: seq<Batch>, sent: seq<Batch>, from: nat, entries: seq<Entry>,
                     today: int, limits: Bounds)
    requires Extends(sent, past) && from <= |past|
    ensures Settled(server, sent, from) == Settled(server, past, from) + Settled(server, sent, |past|)
    ensures AfterRounds(entries, RoundsOf(server, sent, from), today, limits)
         == AfterRounds(AfterRounds(entries, RoundsOf(server, past, from), today, limits),
                        RoundsOf(server, sent, |past|), today, limits)
    ensures RoundsOf(server, sent, from) == [] <==> RoundsOf(server, past, from) == [] && RoundsOf(server, sent, |past|) == []
    ensures RoundsOf(server, sent, |past|) == [] ==>
      AfterRounds(entries, RoundsOf(server, sent, from), today, limits) == AfterRounds(entries, RoundsOf(server, past, from), today, limits)
  {
    hide AckedBy, RoundsOf, RefusedIn, Added;
    MoreRequests(server, past, sent, from);
    MoreRefused(RoundsOf(server, past, from), RoundsOf(server, sent, |past|));
    MoreRounds(entries, RoundsOf(server, past, from), RoundsOf(server, sent, |past|), today, limits);
  }

  lemma EmptyDelivery(server: seq<Batch> -> Reply, sent: seq<Batch>, entries: seq<Entry>, today: int, limits: Bounds, size: nat)
    requires size > 0
    ensures Settled(server, sent, |sent|) == multiset{} && RoundsOf(server, sent, |sent|) == []
    ensures AfterRounds(entries, [], today, limits) == entries && Slices(0, size) == 0
  {
  }

  lemma BatchHoldsSlice(slice: seq<SafeEvent>, batch: Batch)
    requires forall kind :: batch.Of(kind) == OfKind(slice, kind)
    ensures batch.Contents() == multiset(slice) && batch.Size() == |slice|
  {
    ListsHoldAll(slice);
    assert batch.Of(Checkins) == batch.checkins && batch.Of(Rejects) == batch.rejects && batch.Of(AcsItems) == batch.acsItems;
  }

  lemma SliceEnds(events: seq<SafeEvent>, start: nat, end: nat, settled: multiset<SafeEvent>)
    requires start <= end <= |events| && settled <= multiset(events[start..end])
    ensures multiset(events[..start]) + settled <= multiset(events)
    ensures settled == multiset(events[start..end]) ==> multiset(events[..start]) + settled == multiset(events[..end])
  {
    assert events[..start] + events[start..end] == events[..end];
    assert events[..end] + events[end..] == events;
  }

  /** Delivers a chunk's events. The replies say what happened to every event: without a failure the events are
      exactly the acknowledged and the refused ones, each once, and the refused ones went to the quarantine round
      by round; on a failure never more than the given events. If nothing was refused, each kind went out in order.
      Against a server that reports at least 50 refused events a time the only failures are failed requests, and
      there are at most 21 requests a slice. */
  method Deliver(events: seq<SafeEvent>, maxPerRequest: nat, server: seq<Batch> -> Reply, history: seq<Batch>,
                 q: Quarantine, ghost refuses: SafeEvent -> bool)
    returns (failure: Option<Category>, sent: seq<Batch>)
    requires 1 <= maxPerRequest <= 1000 && !q.readOnly
    modifies q`entries, q`file
    ensures Extends(sent, history)
    ensures Settled(server, sent, |history|) <= multiset(events)
    ensures failure.None? ==> Settled(server, sent, |history|) == multiset(events)
    ensures failure.None? && RoundsOf(server, sent, |history|) == [] ==> SentInOrder(sent, |history|, events)
    ensures q.entries == AfterRounds(old(q.entries), RoundsOf(server, sent, |history|), q.today, q.limits)
    ensures q.file == if RoundsOf(server, sent, |history|) == [] then old(q.file) else q.entries
    ensures RefusedKept(old(q.entries), q.entries, RoundsOf(server, sent, |history|), q.today, q.limits)
    ensures |sent| <= |history| + 60 * Slices(|events|, maxPerRequest)
    ensures Reports50(server, refuses) ==> |sent| <= |history| + 21 * Slices(|events|, maxPerRequest)
    ensures Reports50(server, refuses) && failure.Some? ==>
      sent != [] && OutcomeOf(server(sent), sent[|sent| - 1]) == Failed(failure.value)
  {
    hide OutcomeOf, Reports50, AfterRounds, RefusedIn, AckedBy, RoundsOf, Batch.Contents, Slices, OfKind, Added, Settled, Extends, Left,
      SentInOrder, RefusedKept;
    ghost var before := q.entries;
    var start: nat := 0;
    sent := history;
    ExtendsMore(history, history, []);
    LeftFacts(|events|);
    EmptyDelivery(server, sent, before, q.today, q.limits, maxPerRequest);
    NoneInOrder(history);
    while start < |events|
      invariant Extends(sent, history)
      invariant Settled(server, sent, |history|) == multiset(events[..Least(start, |events|)])
      invariant RoundsOf(server, sent, |history|) == [] ==> SentInOrder(sent, |history|, events[..Least(start, |events|)])
      invariant q.entries == AfterRounds(before, RoundsOf(server, sent, |history|), q.today, q.limits)
      invariant q.file == if RoundsOf(server, sent, |history|) == [] then old(q.file) else q.entries
      invariant |sent| + 60 * Slices(Left(|events|, start), maxPerRequest) <= |history| + 60 * Slices(|events|, maxPerRequest)
      invariant Reports50(server, refuses) ==>
        |sent| + 21 * Slices(Left(|events|, start), maxPerRequest) <= |history| + 21 * Slices(|events|, maxPerRequest)
      decreases |events| - start
    {
      var end := Least(start + maxPerRequest, |events|);
      var past := sent;
      var ending;
      ending, sent := DeliverSlice(events[start..end], server, past, q, refuses);
      ExtendsMore(past, history, sent);
      SliceSettled(server, past, sent, |history|, before, q.today, q.limits);
      NextSlice(|events|, start, maxPerRequest);
      SliceEnds(events, start, end, Settled(server, sent, |past|));
      var failed := FailureOf(ending);
      if failed.Some? {
        RefusedAddedIn(before, RoundsOf(server, sent, |history|), q.today, q.limits);
        return failed, sent;
      }
      if RoundsOf(server, sent, |history|) == [] { MoreInOrder(past, sent, |history|, events, start, end); }
      start := start + maxPerRequest;
    }
    assert events[..|events|] == events;
    RefusedAddedIn(before, RoundsOf(server, sent, |history|), q.today, q.limits);
    return None, sent;
  }

  lemma RefusedAddedIn(entries: seq<Entry>, rounds: seq<Round>, today: int, limits: Bounds)
    ensures RefusedKept(entries, AfterRounds(entries, rounds, today, limits), rounds, today, limits)
  {
    if HasRoom(entries, |RefusedIn(rounds)|, today, limits) { RefusedAreListed(entries, rounds, today, limits); }
  }

  method DeliverSlice(slice: seq<SafeEvent>, server: seq<Batch> -> Reply, history: seq<Batch>, q: Quarantine,
                      ghost refuses: SafeEvent -> bool)
    returns (ending: Ending, sent: seq<Batch>)
    requires !q.readOnly
    modifies q`entries, q`file
    ensures Extends(sent, history) && |sent| <= |history| + MAX_ROUNDS
    ensures Settled(server, sent, |history|) <= multiset(slice)
    ensures ending == Done ==> Settled(server, sent, |history|) == multiset(slice)
    ensures q.entries == AfterRounds(old(q.entries), RoundsOf(server, sent, |history|), q.today, q.limits)
    ensures q.file == if RoundsOf(server, sent, |history|) == [] then old(q.file) else q.entries
    ensures ending == Done && RoundsOf(server, sent, |history|) == [] ==> SentInOrder(sent, |history|, slice)
    ensures ending != NoProgress
    ensures ending.Gave? ==> sent != [] && OutcomeOf(server(sent), sent[|sent| - 1]) == Failed(ending.category)
    ensures Reports50(server, refuses) && |slice| <= 1000 ==> ending != OutOfRounds && |sent| <= |history| + 21
  {
    hide OutcomeOf, Reports50, AfterRounds, RefusedIn, AckedBy, RoundsOf, Batch.Contents, OfKind, Added;
    var batch := BatchOf(slice);
    BatchHoldsSlice(slice, batch);
    OneBatchInOrder(slice, batch, history);
    ending, sent := DeliverBatch(batch, server, history, q, refuses);
  }

  lemma OneBatchInOrder(slice: seq<SafeEvent>, batch: Batch, history: seq<Batch>)
    requires forall kind :: batch.Of(kind) == OfKind(slice, kind)
    ensures SentInOrder(if batch.Size() > 0 then history + [batch] else history, |history|, slice)
  {
    hide OfKind;
    var sent := if batch.Size() > 0 then history + [batch] else history;
    assert (history + [batch])[..|history|] == history;
    forall kind ensures Carried(sent, |history|, kind) == OfKind(slice, kind) {
      assert batch.Of(kind) == OfKind(slice, kind);
      assert Carried(history, |history|, kind) == [];
      if batch.Size() == 0 { assert batch.Of(kind) == []; }
    }
  }

  lemma {:induction false} CarriedMore(past: seq<Batch>, sent: seq<Batch>, from: nat, kind: Kind)
    requires Extends(sent, past) && from <= |past|
    ensures Carried(sent, from, kind) == Carried(past, from, kind) + Carried(sent, |past|, kind)
  {
    if |sent| == |past| {
      assert sent == past;
    } else {
      CarriedMore(past, sent[..|sent| - 1], from, kind);
    }
  }

  lemma {:induction false} OfKindConcat(a: seq<SafeEvent>, b: seq<SafeEvent>, kind: Kind)
    ensures OfKind(a + b, kind) == OfKind(a, kind) + OfKind(b, kind)
  {
    if b == [] {
      assert a + b == a;
    } else {
      OfKindConcat(a, b[..|b| - 1], kind);
      assert (a + b)[..|a + b| - 1] == a + b[..|b| - 1];
    }
  }

  lemma MoreInOrder(past: seq<Batch>, sent: seq<Batch>, from: nat, events: seq<SafeEvent>, start: nat, end: nat)
    requires Extends(sent, past) && from <= |past| && start <= end <= |events|
    requires SentInOrder(past, from, events[..start]) && SentInOrder(sent, |past|, events[start..end])
    ensures SentInOrder(sent, from, events[..end])
  {
    hide OfKind, Carried;
    forall kind ensures Carried(sent, from, kind) == OfKind(events[..end], kind) {
      CarriedMore(past, sent, from, kind);
      OfKindConcat(events[..start], events[start..end], kind);
      assert events[..start] + events[start..end] == events[..end];
    }
  }

  lemma NoneInOrder(history: seq<Batch>)
    ensures SentInOrder(history, |history|, [])
  {
  }
}
