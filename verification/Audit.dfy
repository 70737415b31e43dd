/** The run history file: torn-line-safe append with retention (collector/run_audit.py). */
module Auditing {
  import opened Text

  /** One parsed history line: when its run started (None if that is missing or malformed) and everything else. */
  datatype Record = Record(started: Option<int>, content: string)

  /** JSON as it is used here: `parse` gives the record of one line, or None for anything that is not an object;
      `render` writes one on a single line. */
  datatype Json = Json(parse: string -> Option<Record>, render: Record -> string)

  /** The characters that end a line for `str.splitlines`. */
  predicate IsBreak(c: char) {
    '\n' <= c <= '\r' || '\U{1c}' <= c <= '\U{1e}' || c == '\U{85}' || c == '\U{2028}' || c == '\U{2029}'
  }

  /** The characters that `str.strip` takes off. */
  predicate IsSpace(c: char) {
    IsBreak(c) || c == ' ' || c == '\t' || c == '\U{1f}' || c == '\U{a0}' || c == '\U{1680}' || '\U{2000}' <= c <= '\U{200a}'
    || c == '\U{202f}' || c == '\U{205f}' || c == '\U{3000}'
  }

  predicate Blank(line: string) {
    forall i :: 0 <= i < |line| ==> IsSpace(line[i])
  }

  predicate OnOneLine(text: string) {
    forall i :: 0 <= i < |text| ==> !IsBreak(text[i])
  }

  /** The lines of a text; a break at the end, or the two characters of one break, leave an empty line, which is no
      record. */
  function Lines(text: string): (lines: seq<string>)
    ensures |lines| > 0
  {
    if text == "" then [""]
    else
      var rest := Lines(text[1..]);
      if IsBreak(text[0]) then [""] + rest else [[text[0]] + rest[0]] + rest[1..]
  }

  /** What is relied on of JSON: printing then parsing gives the record back, a printed record has no line break and
      is not blank, a blank line is no record, and no cut printed record parses. */
  ghost predicate Sound(json: Json) {
    && (forall r :: json.parse(json.render(r)) == Some(r) && OnOneLine(json.render(r)) && !Blank(json.render(r)))
    && (forall line :: Blank(line) ==> json.parse(line).None?)
    && (forall r, n: nat :: n < |json.render(r)| ==> json.parse(json.render(r)[..n]).None?)
  }

  // ----- reading back -----

  function RecordsIn(json: Json, lines: seq<string>): seq<Record> {
    if lines == [] then []
    else
      var earlier := RecordsIn(json, lines[..|lines| - 1]);
      match json.parse(lines[|lines| - 1])
      case Some(r) => earlier + [r]
      case None => earlier
  }

  /** Every record of the file, oldest first; lines that do not parse are skipped. */
  function Records(json: Json, text: string): seq<Record> {
    RecordsIn(json, Lines(text))
  }

  method IterRecords(json: Json, file: Option<string>) returns (records: seq<Record>)
    requires Sound(json)
    ensures records == if file.None? then [] else Records(json, file.value)
  {
    if file.None? { return []; }
    var lines := Lines(file.value);
    records := [];
    for i := 0 to |lines|
      invariant records == RecordsIn(json, lines[..i])
    {
      assert lines[..i + 1][..i] == lines[..i];
      if Blank(lines[i]) { continue; }
      var r := json.parse(lines[i]);
      if r.Some? { records := records + [r.value]; }
    }
    assert lines[..|lines|] == lines;
  }

  lemma {:induction false} LinesConcat(a: string, b: string)
    ensures Lines(a + "\n" + b) == Lines(a) + Lines(b)
  {
    var s := a + "\n" + b;
    if a == "" {
      assert s[1..] == b;
    } else {
      assert s[1..] == a[1..] + "\n" + b;
      LinesConcat(a[1..], b);
    }
  }

  lemma {:induction false} LinesOfOne(line: string)
    requires OnOneLine(line)
    ensures Lines(line) == [line]
  {
    if line != "" {
      LinesOfOne(line[1..]);
      assert [line[0]] + line[1..] == line;
    }
  }

  lemma {:induction false} RecordsInConcat(json: Json, a: seq<string>, b: seq<string>)
    ensures RecordsIn(json, a + b) == RecordsIn(json, a) + RecordsIn(json, b)
  {
    if b == [] {
      assert a + b == a;
    } else {
      RecordsInConcat(json, a, b[..|b| - 1]);
      assert (a + b)[..|a + b| - 1] == a + b[..|b| - 1];
    }
  }

  lemma RecordsConcat(json: Json, a: string, b: string)
    ensures Records(json, a + "\n" + b) == Records(json, a) + Records(json, b)
  {
    LinesConcat(a, b);
    RecordsInConcat(json, Lines(a), Lines(b));
  }

  lemma OneLine(json: Json, line: string)
    requires OnOneLine(line)
    ensures Records(json, line) == match json.parse(line) case Some(r) => [r] case None => []
  {
    LinesOfOne(line);
    var lines := Lines(line);
    assert lines[..0] == [];
    assert RecordsIn(json, lines[..|lines| - 1]) == [];
  }

  lemma NothingRecorded(json: Json)
    requires Sound(json)
    ensures Records(json, "") == []
  {
    OneLine(json, "");
    assert Blank("");
  }

  // ----- appending -----

  predicate NeedsSeparator(text: string) {
    text != "" && text[|text| - 1] != '\n'
  }

  function Appended(json: Json, text: string, r: Record): string {
    text + (if NeedsSeparator(text) then "\n" else "") + json.render(r) + "\n"
  }

  /** A record on a line of its own. */
  lemma PrintedLine(json: Json, r: Record)
    requires Sound(json)
    ensures Records(json, json.render(r) + "\n") == [r]
  {
    hide Lines, Records, Blank, IsBreak;
    var line := json.render(r);
    OneLine(json, line);
    NothingRecorded(json);
    RecordsConcat(json, line, "");
    assert line + "\n" + "" == line + "\n";
  }

  lemma AfterTornLine(json: Json, text: string, r: Record)
    requires Sound(json) && NeedsSeparator(text)
    ensures Records(json, Appended(json, text, r)) == Records(json, text) + [r]
  {
    hide Sound, Lines, Records, Blank, IsBreak, OnOneLine;
    PrintedLine(json, r);
    RecordsConcat(json, text, json.render(r) + "\n");
    assert Appended(json, text, r) == text + "\n" + (json.render(r) + "\n");
  }

  lemma AfterWholeLine(json: Json, text: string, r: Record)
    requires Sound(json) && text != "" && !NeedsSeparator(text)
    ensures Records(json, Appended(json, text, r)) == Records(json, text) + [r]
  {
    hide Sound, Lines, Records, Blank, IsBreak, OnOneLine;
    var head := text[..|text| - 1];
    assert text == head + "\n" + "";
    PrintedLine(json, r);
    NothingRecorded(json);
    RecordsConcat(json, head, "");
    RecordsConcat(json, head, json.render(r) + "\n");
    assert Appended(json, text, r) == head + "\n" + (json.render(r) + "\n");
  }

  /** A torn last line never merges with the new record. */
  lemma AppendedRecords(json: Json, text: string, r: Record)
    requires Sound(json)
    ensures Records(json, Appended(json, text, r)) == Records(json, text) + [r]
  {
    hide Sound, Lines, Records, Blank, IsBreak, OnOneLine;
    if NeedsSeparator(text) {
      AfterTornLine(json, text, r);
    } else if text != "" {
      AfterWholeLine(json, text, r);
    } else {
      PrintedLine(json, r);
      NothingRecorded(json);
      assert Appended(json, "", r) == json.render(r) + "\n";
    }
  }

  predicate Retained(r: Record, cutoff: int) {
    r.started.Some? && r.started.value >= cutoff
  }

  function InRetention(records: seq<Record>, cutoff: int): seq<Record> {
    if records == [] then []
    else
      var earlier := InRetention(records[..|records| - 1], cutoff);
      if Retained(records[|records| - 1], cutoff) then earlier + [records[|records| - 1]] else earlier
  }

  /** Nothing that started before the cutoff is kept, and nothing else is dropped but what has no start. */
  lemma {:induction false} RetentionKeepsExactly(records: seq<Record>, cutoff: int, r: Record)
    ensures r in InRetention(records, cutoff) <==> r in records && r.started.Some? && cutoff <= r.started.value
  {
    if records != [] {
      var init, last := records[..|records| - 1], records[|records| - 1];
      RetentionKeepsExactly(init, cutoff, r);
      assert records == init + [last];
    }
  }

  /** What a rewrite leaves: the records printed again, one on each line. */
  function Printed(json: Json, records: seq<Record>): string {
    if records == [] then ""
    else Printed(json, records[..|records| - 1]) + json.render(records[|records| - 1]) + "\n"
  }

  lemma {:induction false} PrintedRecords(json: Json, records: seq<Record>)
    requires Sound(json)
    ensures Records(json, Printed(json, records)) == records && !NeedsSeparator(Printed(json, records))
  {
    if records == [] {
      OneLine(json, "");
    } else {
      var init, last := records[..|records| - 1], records[|records| - 1];
      PrintedRecords(json, init);
      AppendedRecords(json, Printed(json, init), last);
      assert Printed(json, init) + "" == Printed(json, init);
      assert records == init + [last];
    }
  }

  /** Whether retention drops the line: it has something on it, and it is no record or an expired one. */
  predicate Drops(json: Json, line: string, cutoff: int) {
    !Blank(line) && (json.parse(line).None? || !Retained(json.parse(line).value, cutoff))
  }

  /** Rewrites the file only if a line is dropped. Either way exactly the records in retention remain, in order. */
  method Prune(json: Json, text: string, cutoff: int) returns (pruned: string)
    requires Sound(json)
    ensures Records(json, pruned) == InRetention(Records(json, text), cutoff)
    ensures (forall line :: line in Lines(text) ==> !Drops(json, line, cutoff)) ==> pruned == text
    ensures forall r :: r in Records(json, pruned) ==> r.started.Some? && cutoff <= r.started.value
    ensures NeedsSeparator(pruned) ==> NeedsSeparator(text)
  {
    forall r | r in InRetention(Records(json, text), cutoff) ensures r.started.Some? && cutoff <= r.started.value {
      RetentionKeepsExactly(Records(json, text), cutoff, r);
    }
    var lines := Lines(text);
    var kept: seq<Record> := [];
    var dropped := 0;
    for i := 0 to |lines|
      invariant kept == InRetention(RecordsIn(json, lines[..i]), cutoff) && 0 <= dropped
      invariant dropped == 0 <==> forall j :: 0 <= j < i ==> !Drops(json, lines[j], cutoff)
      invariant dropped == 0 ==> kept == RecordsIn(json, lines[..i])
    {
      assert lines[..i + 1][..i] == lines[..i];
      if Blank(lines[i]) { continue; }
      var r := json.parse(lines[i]);
      if r.None? || !Retained(r.value, cutoff) {
        dropped := dropped + 1;
      } else {
        kept := kept + [r.value];
      }
    }
    assert lines[..|lines|] == lines;
    if dropped <= 0 { return text; }
    PrintedRecords(json, kept);
    return Printed(json, kept);
  }

  /** An append that completes: the earlier records still in retention, in order, then the new one if it is, whether
      or not the file was torn and whether or not it was rewritten. */
  method AppendRunRecord(json: Json, file: Option<string>, r: Record, cutoff: int) returns (text: string)
    requires Sound(json)
    ensures var before := if file.None? then [] else Records(json, file.value);
      Records(json, text) == InRetention(before, cutoff) + if Retained(r, cutoff) then [r] else []
    ensures !NeedsSeparator(text)
  {
    hide Sound, Lines, Records, Blank, IsBreak, OnOneLine;
    var old' := if file.None? then "" else file.value;
    NothingRecorded(json);
    AppendedRecords(json, old', r);
    text := Prune(json, Appended(json, old', r), cutoff);
    var before := Records(json, old');
    assert (before + [r])[..|before|] == before;
  }

  // ----- crashes in the middle of a write -----

  /** A write cut short: the file with any part of what was to be appended. */
  function Torn(json: Json, text: string, r: Record, n: nat): string {
    var whole := Appended(json, text, r);
    if |text| + n <= |whole| then whole[..|text| + n] else whole
  }

  /** How many bytes of the append must get there for the new record to be read back: all but the final newline. */
  function Needed(json: Json, text: string, r: Record): nat {
    (if NeedsSeparator(text) then 1 else 0) + |json.render(r)|
  }

  /** A write cut anywhere leaves the earlier records as they were, with the new one exactly if its whole text got
      there, the newline after it or not; the next append is then sound again. */
  lemma TornWriteLosesNothing(json: Json, text: string, r: Record, n: nat)
    requires Sound(json)
    ensures Records(json, Torn(json, text, r, n)) == Records(json, text) + if n >= Needed(json, text, r) then [r] else []
  {
    var line, whole := json.render(r), Appended(json, text, r);
    AppendedRecords(json, text, r);
    var sep := if NeedsSeparator(text) then 1 else 0;
    if n < sep || n == 0 {
      assert Torn(json, text, r, n) == text;
      assert line != "" by { assert !Blank(line); }
    } else if n <= sep + |line| {
      var part := line[..n - sep];
      assert Torn(json, text, r, n) == text + (if sep == 1 then "\n" else "") + part;
      assert n - sep < |line| || part == line;
      TailRecords(json, text, part);
    } else {
      assert Torn(json, text, r, n) == whole;
    }
  }

  lemma TailRecords(json: Json, text: string, part: string)
    requires Sound(json) && OnOneLine(part)
    ensures Records(json, text + (if NeedsSeparator(text) then "\n" else "") + part)
         == Records(json, text) + match json.parse(part) case Some(r) => [r] case None => []
  {
    OneLine(json, part);
    OneLine(json, "");
    if text == "" {
      assert text + "" + part == part;
    } else if NeedsSeparator(text) {
      RecordsConcat(json, text, part);
    } else {
      var head := text[..|text| - 1];
      assert text == head + "\n" + "";
      RecordsConcat(json, head, "");
      RecordsConcat(json, head, part);
      assert text + "" + part == head + "\n" + part;
    }
  }

  // ----- such a JSON exists -----

  function Codes(s: string): (codes: seq<string>)
    ensures |codes| == |s| && forall i :: 0 <= i < |s| ==> codes[i] == Decimal(s[i] as nat)
  {
    seq(|s|, i requires 0 <= i < |s| => Decimal(s[i] as nat))
  }

  function StartText(started: Option<int>): string {
    match started
    case None => "n"
    case Some(t) => if t < 0 then "m" + Decimal(-t) else Decimal(t)
  }

  function Rendered(r: Record): string {
    "{" + Join([StartText(r.started)] + Codes(r.content), ',') + "}"
  }

  predicate PlainChar(c: char) {
    IsDigit(c) || c == 'n' || c == 'm'
  }

  predicate Plain(s: string) {
    forall i :: 0 <= i < |s| ==> PlainChar(s[i])
  }

  lemma NumeralIsPlain(n: nat)
    ensures Plain(Decimal(n)) && Decimal(n) != ""
  {
    DecimalRoundTrip(n);
    assert forall i :: 0 <= i < |Decimal(n)| ==> IsDigit(Decimal(n)[i]);
  }

  lemma StartIsPlain(started: Option<int>)
    ensures Plain(StartText(started))
  {
    if started.Some? { NumeralIsPlain(if started.value < 0 then -started.value else started.value); }
  }

  lemma {:induction false} JoinOfPlain(parts: seq<string>)
    requires forall i :: 0 <= i < |parts| ==> Plain(parts[i])
    ensures forall i :: 0 <= i < |Join(parts, ',')| ==> PlainChar(Join(parts, ',')[i]) || Join(parts, ',')[i] == ','
  {
    if |parts| > 1 { JoinOfPlain(parts[1..]); }
  }

  lemma StartTextInjective(a: Option<int>, b: Option<int>)
    requires StartText(a) == StartText(b)
    ensures a == b
  {
    if a.Some? { NumeralIsPlain(if a.value < 0 then -a.value else a.value); DecimalRoundTrip(if a.value < 0 then -a.value else a.value); }
    if b.Some? { NumeralIsPlain(if b.value < 0 then -b.value else b.value); DecimalRoundTrip(if b.value < 0 then -b.value else b.value); }
    assert a.Some? ==> IsDigit(Decimal(if a.value < 0 then -a.value else a.value)[0]);
    assert b.Some? ==> IsDigit(Decimal(if b.value < 0 then -b.value else b.value)[0]);
    if a.Some? && b.Some? {
      assert a.value < 0 && b.value < 0 ==> StartText(a)[1..] == Decimal(-a.value) && StartText(b)[1..] == Decimal(-b.value);
      if a.value < 0 && b.value < 0 { DecimalInjective(-a.value, -b.value); }
      if a.value >= 0 && b.value >= 0 { DecimalInjective(a.value, b.value); }
    }
  }

  lemma PartsOf(r: Record)
    ensures var parts := [StartText(r.started)] + Codes(r.content);
      (forall i :: 0 <= i < |parts| ==> Plain(parts[i])) && Clean(parts, ',')
  {
    StartIsPlain(r.started);
    forall i | 0 <= i < |r.content| ensures Plain(Codes(r.content)[i]) { NumeralIsPlain(r.content[i] as nat); }
  }

  lemma RenderedInjective(a: Record, b: Record)
    requires Rendered(a) == Rendered(b)
    ensures a == b
  {
    var p, q := [StartText(a.started)] + Codes(a.content), [StartText(b.started)] + Codes(b.content);
    PartsOf(a);
    PartsOf(b);
    assert Rendered(a)[1..|Rendered(a)| - 1] == Join(p, ',') && Rendered(b)[1..|Rendered(b)| - 1] == Join(q, ',');
    SplitJoin(p, ',');
    SplitJoin(q, ',');
    assert p[0] == q[0];
    StartTextInjective(a.started, b.started);
    forall i | 0 <= i < |a.content| ensures a.content[i] == b.content[i] {
      assert p[i + 1] == q[i + 1];
      DecimalInjective(a.content[i] as nat, b.content[i] as nat);
    }
  }

  /** A record's text opens with a brace, and its only closing brace is its last character. */
  lemma RenderedShape(r: Record)
    ensures var line := Rendered(r);
      |line| >= 2 && line[0] == '{' && OnOneLine(line) && forall i :: 0 <= i < |line| ==> (line[i] == '}' <==> i == |line| - 1)
  {
    var parts := [StartText(r.started)] + Codes(r.content);
    PartsOf(r);
    JoinOfPlain(parts);
    var inner, line := Join(parts, ','), Rendered(r);
    forall i | 0 < i < |line| - 1 ensures line[i] != '}' && !IsBreak(line[i]) {
      assert line[i] == inner[i - 1];
    }
  }

  ghost predicate IsRendered(line: string) {
    exists r :: Rendered(r) == line
  }

  ghost function RecordOf(line: string): Option<Record> {
    if IsRendered(line) then
      var r :| Rendered(r) == line;
      Some(r)
    else None
  }

  lemma CutIsNotRendered(r: Record, n: nat)
    requires n < |Rendered(r)|
    ensures !IsRendered(Rendered(r)[..n])
  {
    RenderedShape(r);
    var cut := Rendered(r)[..n];
    assert n > 0 ==> cut[n - 1] != '}';
    forall other ensures Rendered(other) != cut {
      RenderedShape(other);
      assert Rendered(other)[|Rendered(other)| - 1] == '}';
    }
  }

  /** The assumptions about JSON can be met: a reader and a writer with these properties exist. */
  lemma SoundJsonExists()
    ensures exists json :: Sound(json)
  {
    var json := Json(line => RecordOf(line), r => Rendered(r));
    forall r ensures json.parse(json.render(r)) == Some(r) && OnOneLine(json.render(r)) && !Blank(json.render(r)) {
      RenderedShape(r);
      var got := RecordOf(Rendered(r));
      RenderedInjective(got.value, r);
    }
    forall line | Blank(line) ensures json.parse(line).None? {}
    forall r, n: nat | n < |json.render(r)| ensures json.parse(json.render(r)[..n]).None? {
      CutIsNotRendered(r, n);
    }
    assert Sound(json);
  }
}
