/** The ACS item stream as the server keeps it (src/services/ingest_v2_service.py) and as a reader
    reduces it (docs/contract-v2-design.md, section 9.4): rows in insert order, at most one row a key,
    and for each item the row with the greatest (event_time, id) among holds and 101 non-holds. */
module Server {
  import opened Text
  import opened Identity
  import opened Transform

  predicate HasKey(rows: seq<AcsEvent>, key: string) {
    exists k :: 0 <= k < |rows| && rows[k].eventKey == key
  }

  /** ON CONFLICT (event_key) DO NOTHING. */
  function Insert(rows: seq<AcsEvent>, e: AcsEvent): seq<AcsEvent> {
    if HasKey(rows, e.eventKey) then rows else rows + [e]
  }

  function InsertAll(rows: seq<AcsEvent>, events: seq<AcsEvent>): seq<AcsEvent> {
    if events == [] then rows
    else Insert(InsertAll(rows, events[..|events| - 1]), events[|events| - 1])
  }

  /** A row the Overview reads for the item: other_code10 records do not count. */
  predicate Counts(content: Content, item: HexKey) {
    !content.Other10Content? && content.item == item
  }

  /** The item's latest row: a later row wins ties, because ids grow. */
  function Latest(rows: seq<AcsEvent>, item: HexKey): Option<Content> {
    if rows == [] then None
    else
      var earlier := Latest(rows[..|rows| - 1], item);
      var last := rows[|rows| - 1].content;
      if Counts(last, item) && (earlier.None? || last.time >= earlier.value.time) then Some(last) else earlier
  }

  /** Row j has the greatest (event_time, id) of the item's rows. */
  ghost predicate IsGreatest(rows: seq<AcsEvent>, item: HexKey, j: int) {
    0 <= j < |rows| && Counts(rows[j].content, item)
    && forall k :: 0 <= k < |rows| && Counts(rows[k].content, item) ==>
         rows[k].content.time < rows[j].content.time || (rows[k].content.time == rows[j].content.time && k <= j)
  }

  lemma {:induction false} LatestIsGreatest(rows: seq<AcsEvent>, item: HexKey) returns (j: int)
    ensures Latest(rows, item).Some? ==> IsGreatest(rows, item, j) && rows[j].content == Latest(rows, item).value
    ensures Latest(rows, item).None? ==> forall k :: 0 <= k < |rows| ==> !Counts(rows[k].content, item)
  {
    j := -1;
    if rows != [] {
      var n := |rows| - 1;
      j := LatestIsGreatest(rows[..n], item);
      assert forall k :: 0 <= k < n ==> rows[..n][k] == rows[k];
      if Latest(rows, item) != Latest(rows[..n], item) || Latest(rows[..n], item).None? {
        j := n;
      } else if Counts(rows[n].content, item) && rows[n].content.time >= Latest(rows[..n], item).value.time {
        j := n;
      }
    }
  }

  /** No row of the item is later than its latest row. */
  lemma LatestBounds(rows: seq<AcsEvent>, item: HexKey)
    ensures forall k :: 0 <= k < |rows| && Counts(rows[k].content, item) ==>
      Latest(rows, item).Some? && rows[k].content.time <= Latest(rows, item).value.time
  {
    var j := LatestIsGreatest(rows, item);
  }

  lemma InsertLatest(rows: seq<AcsEvent>, e: AcsEvent, item: HexKey)
    ensures HasKey(rows, e.eventKey) ==> Latest(Insert(rows, e), item) == Latest(rows, item)
    ensures !HasKey(rows, e.eventKey) ==>
      (Latest(Insert(rows, e), item) ==
        if Counts(e.content, item) && (Latest(rows, item).None? || e.content.time >= Latest(rows, item).value.time)
        then Some(e.content) else Latest(rows, item))
  {
    assert (rows + [e])[..|rows|] == rows;
  }

  // ----- resending is idempotent -----

  lemma {:induction false} InsertAllHas(rows: seq<AcsEvent>, events: seq<AcsEvent>)
    ensures forall key :: HasKey(rows, key) ==> HasKey(InsertAll(rows, events), key)
    ensures forall k :: 0 <= k < |events| ==> HasKey(InsertAll(rows, events), events[k].eventKey)
    ensures forall key :: HasKey(InsertAll(rows, events), key) ==>
      HasKey(rows, key) || exists k :: 0 <= k < |events| && events[k].eventKey == key
  {
    if events != [] {
      var n := |events| - 1;
      InsertAllHas(rows, events[..n]);
      var mid := InsertAll(rows, events[..n]);
      var end := InsertAll(rows, events);
      assert end == mid || end == mid + [events[n]];
      forall key | HasKey(mid, key) ensures HasKey(end, key) {
        var k :| 0 <= k < |mid| && mid[k].eventKey == key;
        assert end[k] == mid[k];
      }
      assert HasKey(end, events[n].eventKey) by {
        if !HasKey(mid, events[n].eventKey) { assert end[|mid|].eventKey == events[n].eventKey; }
      }
      forall k | 0 <= k < |events| ensures HasKey(end, events[k].eventKey) {
        if k < n { assert events[..n][k] == events[k]; }
      }
      forall key | HasKey(end, key)
        ensures HasKey(rows, key) || exists k :: 0 <= k < |events| && events[k].eventKey == key
      {
        if !HasKey(mid, key) {
          assert events[n].eventKey == key;
        } else if !HasKey(rows, key) {
          var k :| 0 <= k < n && events[..n][k].eventKey == key;
          assert events[k].eventKey == key;
        }
      }
    }
  }

  lemma {:induction false} InsertAllConcat(rows: seq<AcsEvent>, a: seq<AcsEvent>, b: seq<AcsEvent>)
    ensures InsertAll(rows, a + b) == InsertAll(InsertAll(rows, a), b)
  {
    if b == [] {
      assert a + b == a;
    } else {
      var n := |b| - 1;
      InsertAllConcat(rows, a, b[..n]);
      assert (a + b)[..|a + b| - 1] == a + b[..n];
    }
  }

  /** Events whose keys are all stored change nothing. */
  lemma {:induction false} InsertKnown(rows: seq<AcsEvent>, events: seq<AcsEvent>)
    requires forall k :: 0 <= k < |events| ==> HasKey(rows, events[k].eventKey)
    ensures InsertAll(rows, events) == rows
  {
    if events != [] {
      var init := events[..|events| - 1];
      assert forall k :: 0 <= k < |init| ==> init[k] == events[k];
      InsertKnown(rows, init);
    }
  }

  /** Storing any prefix and then everything is storing everything once. */
  lemma ResendAfterPrefix(rows: seq<AcsEvent>, events: seq<AcsEvent>, n: nat)
    requires n <= |events|
    ensures InsertAll(InsertAll(rows, events[..n]), events) == InsertAll(rows, events)
  {
    var mid := InsertAll(rows, events[..n]);
    InsertAllHas(rows, events[..n]);
    InsertKnown(mid, events[..n]);
    InsertAllConcat(mid, events[..n], events[n..]);
    InsertAllConcat(rows, events[..n], events[n..]);
    assert events == events[..n] + events[n..];
  }
}
