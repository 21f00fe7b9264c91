/**
 * The stand-alone stats parser: it walks the lines of a pretty-printed JSON
 * document `{"stat": [{"name": ..., "value": ...}, ...]}` with two pieces of
 * state, the current name and the current value, and stores the pair each
 * time an object closes.
 *
 * The name is extracted in two ways: as the program does it, and as it was
 * evidently meant. As written, the program takes the text after the first
 * "name" and keeps what lies between its first two '"'. On a line
 * `"name": "X"` that piece begins `": "`, so every name comes out as ": "
 * (see NameLineAsWritten). The corrected extraction skips to the ':' and
 * takes the quoted text after it.
 */
module TestParser {
  import opened Wrappers
  import opened Text

  datatype State = State(name: Option<string>, value: Option<int>, stats: map<string, int>)

  const Start: State := State(None, None, map[])

  /** Which name extraction the parser uses. */
  datatype Extraction = AsWritten | Corrected

  /** The ASCII digits of `s`, in order. */
  function DigitsOf(s: string): (r: string)
    ensures AllDigits(r) && |r| <= |s|
    decreases |s|
  {
    if s == [] then [] else (if IsDigit(s[0]) then [s[0]] else []) + DigitsOf(s[1..])
  }

  lemma {:induction false} DigitsOfAppend(a: string, b: string)
    ensures DigitsOf(a + b) == DigitsOf(a) + DigitsOf(b)
    decreases |a|
  {
    if a != [] {
      assert (a + b)[1..] == a[1..] + b;
      DigitsOfAppend(a[1..], b);
    } else {
      assert a + b == b;
    }
  }

  lemma {:induction false} DigitsOfDigits(s: string)
    requires AllDigits(s)
    ensures DigitsOf(s) == s
    decreases |s|
  {
    if s != [] {
      DigitsOfDigits(s[1..]);
    }
  }

  /** The text between the first two '"' of `part`. */
  function QuotedIn(part: string): (r: Option<string>)
    ensures r.Some? ==> '"' !in r.value
  {
    match IndexOf(part, '"')
    case None => None
    case Some(start) =>
      match IndexOf(part[start + 1..], '"')
      case None => None
      case Some(end) => Some(part[start + 1..start + 1 + end])
  }

  /** As written: the quoted text in the piece between the first and second "name". */
  function NameAsWritten(line: string): (r: Option<string>)
    ensures r.Some? ==> Contains(line, "name")
  {
    if !Contains(line, "name") then None
    else match SplitNth(line, "name", 1)
      case None => None
      case Some(part) => QuotedIn(part)
  }

  /** Corrected: the quoted text after the ':' that follows the first "name". */
  function NameCorrected(line: string): (r: Option<string>)
    ensures r.Some? ==> Contains(line, "name")
  {
    match Find(line, "name")
    case None => None
    case Some(i) =>
      var after := line[i + 4..];
      match IndexOf(after, ':')
      case None => None
      case Some(c) => QuotedIn(after[c + 1..])
  }

  function ExtractName(line: string, x: Extraction): Option<string> {
    if x.AsWritten? then NameAsWritten(line) else NameCorrected(line)
  }

  /**
   * The value: every ASCII digit after the first "value", read as an i64. A
   * sign is dropped with the other non-digits; no digits or an overflow give
   * no value.
   */
  function ValueOf(line: string): (r: Option<int>)
    ensures r.Some? ==> 0 <= r.value <= I64Max
  {
    if !Contains(line, "value") then None
    else match SplitNth(line, "value", 1)
      case None => None
      case Some(part) => ParseI64(DigitsOf(part))
  }

  lemma ParseDigitsIsNatural(d: string)
    requires AllDigits(d)
    ensures ParseI64(d).Some? ==> ParseI64(d).value == DigitsValue(d)
  {
  }

  /** A closing line stores the pair when both halves are set and clears both; any other line changes nothing. */
  function Closed(st: State, line: string): (r: State)
    ensures !StartsWith(line, "}") ==> r == st
  {
    if StartsWith(line, "}") then
      State(None, None, if st.name.Some? && st.value.Some? then st.stats[st.name.value := st.value.value] else st.stats)
    else st
  }

  /** A name or value found on the line replaces the current one; the stored pairs stay. */
  function Extracted(st: State, line: string, x: Extraction): (r: State)
    ensures r.stats == st.stats
    ensures r.name == (if ExtractName(line, x).Some? then ExtractName(line, x) else st.name)
    ensures r.value == (if ValueOf(line).Some? then ValueOf(line) else st.value)
  {
    var named := match ExtractName(line, x) case Some(n) => st.(name := Some(n)) case None => st;
    match ValueOf(line)
    case Some(v) => named.(value := Some(v))
    case None => named
  }

  /** The pending value and every stored one are counters: at least 0 and at most the i64 maximum. */
  predicate Counters(st: State) {
    (st.value.Some? ==> 0 <= st.value.value <= I64Max)
    && forall k :: k in st.stats ==> 0 <= st.stats[k] <= I64Max
  }

  /** One line: the object boundary first, then name and value extraction. */
  function Step(st: State, raw: string, x: Extraction): (r: State)
    ensures st.stats.Keys <= r.stats.Keys
    ensures r.stats.Keys <= st.stats.Keys + (if st.name.Some? then {st.name.value} else {})
    ensures !StartsWith(TrimRust(raw), "}") ==> r.stats == st.stats
    ensures Counters(st) ==> Counters(r)
  {
    var line := TrimRust(raw);
    Extracted(Closed(st, line), line, x)
  }

  function Run(st: State, lines: seq<string>, x: Extraction): (r: State)
    ensures st.stats.Keys <= r.stats.Keys
    ensures Counters(st) ==> Counters(r)
    decreases |lines|
  {
    if lines == [] then st else Run(Step(st, lines[0], x), lines[1..], x)
  }

  lemma {:induction false} RunSnoc(st: State, lines: seq<string>, l: string, x: Extraction)
    ensures Run(st, lines + [l], x) == Step(Run(st, lines, x), l, x)
    decreases |lines|
  {
    if lines != [] {
      assert (lines + [l])[1..] == lines[1..] + [l];
      RunSnoc(Step(st, lines[0], x), lines[1..], l, x);
    }
  }

  lemma RunPrefix(st: State, lines: seq<string>, i: nat, x: Extraction)
    requires i < |lines|
    ensures Run(st, lines[..i + 1], x) == Step(Run(st, lines[..i], x), lines[i], x)
  {
    assert lines[..i + 1] == lines[..i] + [lines[i]];
    RunSnoc(st, lines[..i], lines[i], x);
  }

  lemma {:induction false} RunAppend(st: State, a: seq<string>, b: seq<string>, x: Extraction)
    ensures Run(st, a + b, x) == Run(Run(st, a, x), b, x)
    decreases |a|
  {
    if a != [] {
      assert (a + b)[1..] == a[1..] + b;
      RunAppend(Step(st, a[0], x), a[1..], b, x);
    } else {
      assert a + b == b;
    }
  }

  /** The body of the line loop: the boundary check, then the name and value of the trimmed line. */
  method StepLine(name: Option<string>, value: Option<int>, stats: map<string, int>, raw: string, x: Extraction)
    returns (name': Option<string>, value': Option<int>, stats': map<string, int>)
    ensures State(name', value', stats') == Step(State(name, value, stats), raw, x)
  {
    name', value', stats' := name, value, stats;
    var line := TrimRust(raw);
    if StartsWith(line, "}") {
      if name'.Some? && value'.Some? {
        stats' := stats'[name'.value := value'.value];
      }
      name' := None;
      value' := None;
    }
    var n := ExtractName(line, x);
    if n.Some? {
      name' := n;
    }
    var v := ValueOf(line);
    if v.Some? {
      value' := v;
    }
  }

  /** The line loop of the program, over `text.lines()`. */
  method ParseStats(text: string, x: Extraction) returns (stats: map<string, int>)
    ensures stats == Run(Start, Lines(text), x).stats
  {
    var lines := Lines(text);
    var name: Option<string> := None;
    var value: Option<int> := None;
    stats := map[];
    var i := 0;
    assert lines[..0] == [];
    while i < |lines|
      invariant 0 <= i <= |lines|
      invariant State(name, value, stats) == Run(Start, lines[..i], x)
    {
      var before := State(name, value, stats);
      name, value, stats := StepLine(name, value, stats, lines[i], x);
      RunPrefixStep(lines, i, x, before, State(name, value, stats));
      i := i + 1;
    }
    assert lines[..i] == lines;
  }

  /** One more line of the loop extends the run over the prefix by that line's step. */
  lemma RunPrefixStep(lines: seq<string>, i: nat, x: Extraction, before: State, after: State)
    requires i < |lines|
    requires before == Run(Start, lines[..i], x)
    requires after == Step(before, lines[i], x)
    ensures after == Run(Start, lines[..i + 1], x)
  {
    RunPrefix(Start, lines, i, x);
  }

  /**
   * On a closing line the pair is stored only when both halves are set, both
   * are cleared, and only then does the same line's name and value count.
   */
  lemma BoundaryBeforeExtraction(st: State, raw: string, x: Extraction)
    requires StartsWith(TrimRust(raw), "}")
    ensures Step(st, raw, x).stats
      == if st.name.Some? && st.value.Some? then st.stats[st.name.value := st.value.value] else st.stats
    ensures Step(st, raw, x).name == ExtractName(TrimRust(raw), x)
    ensures Step(st, raw, x).value == ValueOf(TrimRust(raw))
  {
  }

  /** Any other line leaves the stored pairs alone, and a name or value not found persists. */
  lemma NoBoundaryKeepsStats(st: State, raw: string, x: Extraction)
    requires !StartsWith(TrimRust(raw), "}")
    ensures Step(st, raw, x).stats == st.stats
    ensures ExtractName(TrimRust(raw), x).None? ==> Step(st, raw, x).name == st.name
    ensures ValueOf(TrimRust(raw)).None? ==> Step(st, raw, x).value == st.value
  {
  }

  // ---------------------------------------------------------------- the lines of a stats document

  const NamePrefix: string := "\"name\": \""
  const ValuePrefix: string := "\"value\": "

  /** `"name": "<n>"`, with a trailing ',' when a value follows. */
  function NameLine(n: string, more: bool): string {
    NamePrefix + n + (if more then "\"," else "\"")
  }

  function ValueLine(v: nat): string {
    ValuePrefix + NatToDecimal(v)
  }

  /** A name fit for the document: no '"', no 'v' and no line break. */
  predicate PlainName(n: string) {
    '"' !in n && 'v' !in n && '\n' !in n
  }

  lemma NameLineFind(n: string, tail: string)
    ensures var line := NamePrefix + n + tail;
      Find(line, "name") == Some(1) && line[5..] == "\": \"" + n + tail
  {
    var line := NamePrefix + n + tail;
    assert line[1..5] == "name";
    assert line[0] == '"';
    FindFirstAt(line, "name", 1);
  }

  /** As written, a name line yields ": " whatever the name: the finding. */
  lemma NameLineAsWritten(n: string, tail: string)
    ensures NameAsWritten(NamePrefix + n + tail) == Some(": ")
  {
    var line := NamePrefix + n + tail;
    NameLineFind(n, tail);
    var rest := line[5..];
    assert rest[..4] == "\": \"";
    NoOccurrenceBefore(rest, "name", 4);
    SplitFirstPieceKeeps(rest, "name", 4);
    var part := Split(rest, "name")[0];
    assert SplitNth(line, "name", 1) == Some(part);
    assert part[0] == '"' && part[1] == ':' && part[2] == ' ' && part[3] == '"';
    assert IndexOf(part, '"') == Some(0);
    assert part[1..][0] == ':' && part[1..][1] == ' ' && part[1..][2] == '"';
    assert IndexOf(part[1..], '"') == Some(2);
    assert part[1..3] == ": ";
  }

  /** Corrected, a name line yields its name. */
  lemma NameLineCorrected(n: string, tail: string)
    requires '"' !in n
    ensures NameCorrected(NamePrefix + n + "\"" + tail) == Some(n)
  {
    var line := NamePrefix + n + "\"" + tail;
    NameLineFind(n, "\"" + tail);
    assert line == NamePrefix + n + ("\"" + tail);
    var after := line[5..];
    assert after[0] == '"' && after[1] == ':';
    assert IndexOf(after, ':') == Some(1);
    var v := after[2..];
    assert v == " \"" + n + "\"" + tail;
    assert v[0] == ' ' && v[1] == '"';
    assert IndexOf(v, '"') == Some(1);
    assert v[2..] == n + ['"'] + tail;
    IndexOfConcat(n, '"', tail);
    assert IndexOf(v[2..], '"') == Some(|n|);
    assert QuotedIn(v) == Some(v[2..2 + |n|]);
    assert v[2..2 + |n|] == n;
    assert NameCorrected(line) == QuotedIn(after[2..]);
  }

  /** After the key, only the digits of the rest of the line count. */
  lemma ValueOfPrefixed(s: string)
    requires 'v' !in s
    ensures ValueOf(ValuePrefix + s) == ParseI64(DigitsOf(s))
  {
    ValuePieceOf(s, "\": ");
    NoDigitsBefore("\": ", s);
  }

  lemma ValuePieceOf(s: string, sep: string)
    requires 'v' !in s && sep == "\": "
    ensures Contains(ValuePrefix + s, "value")
    ensures SplitNth(ValuePrefix + s, "value", 1) == Some(sep + s)
  {
    var line := ValuePrefix + s;
    assert line[1..6] == "value" && line[0] == '"';
    FindFirstAt(line, "value", 1);
    var rest := line[6..];
    assert rest == sep + s;
    NoOccurrenceWithoutHead(rest, "value");
    SplitNoSeparator(rest, "value");
  }

  lemma NoDigitsBefore(p: string, s: string)
    requires forall i :: 0 <= i < |p| ==> !IsDigit(p[i])
    ensures DigitsOf(p + s) == DigitsOf(s)
  {
    DigitsOfAppend(p, s);
    DigitsOfNone(p);
  }

  lemma {:induction false} DigitsOfNone(p: string)
    requires forall i :: 0 <= i < |p| ==> !IsDigit(p[i])
    ensures DigitsOf(p) == []
    decreases |p|
  {
    if p != [] {
      DigitsOfNone(p[1..]);
    }
  }

  lemma DecimalHasNoV(v: nat)
    ensures 'v' !in NatToDecimal(v)
  {
    var d := NatToDecimal(v);
    assert forall k :: 0 <= k < |d| ==> IsDigit(d[k]);
  }

  lemma ValueLineValue(v: nat)
    requires v <= I64Max
    ensures ValueOf(ValueLine(v)) == Some(v)
  {
    var d := NatToDecimal(v);
    DecimalHasNoV(v);
    ValueOfPrefixed(d);
    DigitsOfDigits(d);
    ParseI64OfDecimal(v);
  }

  /** A minus sign is discarded with the other non-digits. */
  lemma NegativeValueLosesSign(v: nat)
    requires v <= I64Max
    ensures ValueOf(ValuePrefix + "-" + NatToDecimal(v)) == Some(v)
  {
    var d := NatToDecimal(v);
    DecimalHasNoV(v);
    assert ValuePrefix + "-" + d == ValuePrefix + ("-" + d);
    ValueOfPrefixed("-" + d);
    NoDigitsBefore("-", d);
    DigitsOfDigits(d);
    ParseI64OfDecimal(v);
  }

  /** A value too large for an i64 is not read. */
  lemma OverflowHasNoValue(v: nat)
    requires v > I64Max
    ensures ValueOf(ValueLine(v)) == None
  {
    var d := NatToDecimal(v);
    DecimalHasNoV(v);
    ValueOfPrefixed(d);
    DigitsOfDigits(d);
  }

  /** So the value read before stays. */
  lemma OverflowKeepsValue(st: State, v: nat, x: Extraction)
    requires v > I64Max
    ensures Step(st, ValueLine(v), x).value == st.value
  {
    OverflowHasNoValue(v);
    ValueLineShape(v, x);
  }

  /** A value line is trimmed, is no boundary and names nothing. */
  lemma ValueLineShape(v: nat, x: Extraction)
    ensures TrimRust(ValueLine(v)) == ValueLine(v)
    ensures !StartsWith(ValueLine(v), "}")
    ensures ExtractName(ValueLine(v), x) == None
  {
    var d := NatToDecimal(v);
    var line := ValueLine(v);
    assert line[0] == '"' && line[|line| - 1] == d[|d| - 1];
    TrimmedLine(line);
    assert forall k :: 0 <= k < |d| ==> IsDigit(d[k]);
    assert 'n' !in line;
    NoOccurrenceWithoutHead(line, "name");
  }

  /** The name a line `"name": "<n>"` gives under each extraction. */
  function NameFor(n: string, x: Extraction): string {
    if x.AsWritten? then ": " else n
  }

  lemma StepPlain(st: State, l: string, x: Extraction)
    requires l != [] && !IsRustWhitespace(l[0]) && !IsRustWhitespace(l[|l| - 1])
    requires l[0] != '}' && 'n' !in l && 'v' !in l
    ensures Step(st, l, x) == st
  {
    TrimOfTrimmed(l, IsRustWhitespace);
    NoOccurrenceWithoutHead(l, "name");
    NoOccurrenceWithoutHead(l, "value");
  }

  /** A text with no white space at either end is its own trim. */
  lemma TrimmedLine(l: string)
    requires l != [] && !IsRustWhitespace(l[0]) && !IsRustWhitespace(l[|l| - 1])
    ensures TrimRust(l) == l
  {
    TrimOfTrimmed(l, IsRustWhitespace);
  }

  lemma NameLineFacts(n: string, more: bool, x: Extraction)
    requires PlainName(n)
    ensures TrimRust(NameLine(n, more)) == NameLine(n, more)
    ensures !StartsWith(NameLine(n, more), "}")
    ensures ExtractName(NameLine(n, more), x) == Some(NameFor(n, x))
    ensures ValueOf(NameLine(n, more)) == None
  {
    NameLineName(n, more, x);
    NameLineNoValue(n, more);
    NameLineTrimmed(n, more);
  }

  lemma NameLineName(n: string, more: bool, x: Extraction)
    requires PlainName(n)
    ensures ExtractName(NameLine(n, more), x) == Some(NameFor(n, x))
  {
    var tail := if more then "," else "";
    var line := NameLine(n, more);
    assert line == NamePrefix + n + "\"" + tail;
    if x.AsWritten? {
      assert line == NamePrefix + n + ("\"" + tail);
      NameLineAsWritten(n, "\"" + tail);
    } else {
      NameLineCorrected(n, tail);
    }
  }

  lemma NameLineNoValue(n: string, more: bool)
    requires PlainName(n)
    ensures ValueOf(NameLine(n, more)) == None
  {
    var line := NameLine(n, more);
    assert 'v' !in line;
    NoOccurrenceWithoutHead(line, "value");
  }

  lemma NameLineTrimmed(n: string, more: bool)
    ensures TrimRust(NameLine(n, more)) == NameLine(n, more)
    ensures !StartsWith(NameLine(n, more), "}")
  {
    var line := NameLine(n, more);
    assert line[0] == '"' && line[|line| - 1] in "\",";
    TrimmedLine(line);
  }

  lemma StepName(st: State, n: string, more: bool, x: Extraction)
    requires PlainName(n)
    ensures Step(st, NameLine(n, more), x) == st.(name := Some(NameFor(n, x)))
  {
    NameLineFacts(n, more, x);
  }

  lemma StepValue(st: State, v: nat, x: Extraction)
    requires v <= I64Max
    ensures Step(st, ValueLine(v), x) == st.(value := Some(v))
  {
    ValueLineValue(v);
    ValueLineShape(v, x);
  }

  lemma StepClose(st: State, c: string, x: Extraction)
    requires c == "}" || c == "},"
    ensures Step(st, c, x)
      == State(None, None, if st.name.Some? && st.value.Some? then st.stats[st.name.value := st.value.value] else st.stats)
  {
    TrimOfTrimmed(c, IsRustWhitespace);
    NoOccurrenceWithoutHead(c, "name");
    NoOccurrenceWithoutHead(c, "value");
  }

  /** One stats object: its name, and its value when it has one. */
  datatype Entry = Entry(name: string, value: Option<nat>)

  predicate FitEntry(e: Entry) {
    PlainName(e.name) && (e.value.Some? ==> e.value.value <= I64Max)
  }

  /** The lines of one object, closed by `closer`. */
  function EntryLines(e: Entry, closer: string): seq<string> {
    ["{"] + ([NameLine(e.name, e.value.Some?)]
      + (if e.value.Some? then [ValueLine(e.value.value)] + [closer] else [closer]))
  }

  /** The objects of the array, each closed by "}," except the last. */
  function Entries(es: seq<Entry>): seq<string>
    decreases |es|
  {
    if es == [] then []
    else if |es| == 1 then EntryLines(es[0], "}")
    else EntryLines(es[0], "},") + Entries(es[1..])
  }

  /** The whole document, line by line. */
  function Document(es: seq<Entry>): seq<string> {
    ["{"] + (["\"stat\": ["] + (Entries(es) + (["]"] + ["}"])))
  }

  /** What storing one object does to the map. */
  function Record(m: map<string, int>, e: Entry, x: Extraction): map<string, int> {
    if e.value.Some? then m[NameFor(e.name, x) := e.value.value] else m
  }

  function Records(m: map<string, int>, es: seq<Entry>, x: Extraction): map<string, int>
    decreases |es|
  {
    if es == [] then m else Records(Record(m, es[0], x), es[1..], x)
  }

  lemma RunCons(st: State, l: string, rest: seq<string>, x: Extraction, next: State)
    requires Step(st, l, x) == next
    ensures Run(st, [l] + rest, x) == Run(next, rest, x)
  {
    assert ([l] + rest)[1..] == rest;
  }

  lemma RunName(st: State, n: string, more: bool, rest: seq<string>, x: Extraction)
    requires PlainName(n)
    ensures Run(st, [NameLine(n, more)] + rest, x) == Run(st.(name := Some(NameFor(n, x))), rest, x)
  {
    StepName(st, n, more, x);
    RunCons(st, NameLine(n, more), rest, x, st.(name := Some(NameFor(n, x))));
  }

  lemma RunValue(st: State, v: nat, rest: seq<string>, x: Extraction)
    requires v <= I64Max
    ensures Run(st, [ValueLine(v)] + rest, x) == Run(st.(value := Some(v)), rest, x)
  {
    StepValue(st, v, x);
    RunCons(st, ValueLine(v), rest, x, st.(value := Some(v)));
  }

  lemma RunOpen(st: State, rest: seq<string>, x: Extraction)
    ensures Run(st, ["{"] + rest, x) == Run(st, rest, x)
  {
    StepPlain(st, "{", x);
    RunCons(st, "{", rest, x, st);
  }

  lemma RunClose(st: State, c: string, x: Extraction)
    requires c == "}" || c == "},"
    ensures Run(st, [c], x)
      == State(None, None, if st.name.Some? && st.value.Some? then st.stats[st.name.value := st.value.value] else st.stats)
  {
    StepClose(st, c, x);
    assert [c] == [c] + [];
    RunCons(st, c, [], x, Step(st, c, x));
  }

  lemma EntryEffect(m: map<string, int>, e: Entry, closer: string, x: Extraction)
    requires FitEntry(e) && (closer == "}" || closer == "},")
    ensures Run(State(None, None, m), EntryLines(e, closer), x) == State(None, None, Record(m, e, x))
  {
    var s0 := State(None, None, m);
    var s1 := s0.(name := Some(NameFor(e.name, x)));
    var tail := if e.value.Some? then [ValueLine(e.value.value)] + [closer] else [closer];
    RunOpen(s0, [NameLine(e.name, e.value.Some?)] + tail, x);
    RunName(s0, e.name, e.value.Some?, tail, x);
    if e.value.Some? {
      RunValue(s1, e.value.value, [closer], x);
      RunClose(s1.(value := Some(e.value.value)), closer, x);
    } else {
      RunClose(s1, closer, x);
    }
  }

  lemma {:induction false} EntriesEffect(m: map<string, int>, es: seq<Entry>, x: Extraction)
    requires forall i :: 0 <= i < |es| ==> FitEntry(es[i])
    ensures Run(State(None, None, m), Entries(es), x) == State(None, None, Records(m, es, x))
    decreases |es|
  {
    if |es| == 1 {
      EntryEffect(m, es[0], "}", x);
    } else if |es| > 1 {
      EntryEffect(m, es[0], "},", x);
      RunAppend(State(None, None, m), EntryLines(es[0], "},"), Entries(es[1..]), x);
      EntriesEffect(Record(m, es[0], x), es[1..], x);
    }
  }

  lemma RunPlain(st: State, l: string, rest: seq<string>, x: Extraction)
    requires l != [] && !IsRustWhitespace(l[0]) && !IsRustWhitespace(l[|l| - 1])
    requires l[0] != '}' && 'n' !in l && 'v' !in l
    ensures Run(st, [l] + rest, x) == Run(st, rest, x)
  {
    StepPlain(st, l, x);
    RunCons(st, l, rest, x, st);
  }

  lemma RunHeader(st: State, l: string, rest: seq<string>, x: Extraction)
    requires l == "\"stat\": ["
    ensures Run(st, [l] + rest, x) == Run(st, rest, x)
  {
    assert l[0] == '"' && l[|l| - 1] == '[';
    assert forall i :: 0 <= i < |l| ==> l[i] != 'n' && l[i] != 'v';
    RunPlain(st, l, rest, x);
  }

  /** The parser stores, object by object, exactly what `Records` says. */
  lemma DocumentEffect(es: seq<Entry>, x: Extraction)
    requires forall i :: 0 <= i < |es| ==> FitEntry(es[i])
    ensures Run(Start, Document(es), x).stats == Records(map[], es, x)
  {
    var close := ["]"] + ["}"];
    RunOpen(Start, ["\"stat\": ["] + (Entries(es) + close), x);
    RunHeader(Start, "\"stat\": [", Entries(es) + close, x);
    RunAppend(Start, Entries(es), close, x);
    EntriesEffect(map[], es, x);
    var mid := State(None, None, Records(map[], es, x));
    RunPlain(mid, "]", ["}"], x);
    RunClose(mid, "}", x);
  }

  /** Storing never removes a key. */
  lemma {:induction false} RecordsKeepKeys(m: map<string, int>, es: seq<Entry>, x: Extraction)
    ensures m.Keys <= Records(m, es, x).Keys
    decreases |es|
  {
    if es != [] {
      RecordsKeepKeys(Record(m, es[0], x), es[1..], x);
    }
  }

  /** As written, every object lands under the one key ": ". */
  lemma {:induction false} RecordsAsWrittenKeys(m: map<string, int>, es: seq<Entry>)
    requires m.Keys <= {": "}
    ensures Records(m, es, AsWritten).Keys <= {": "}
    ensures (exists i :: 0 <= i < |es| && es[i].value.Some?) ==> Records(m, es, AsWritten).Keys == {": "}
    decreases |es|
  {
    if es != [] {
      RecordsAsWrittenKeys(Record(m, es[0], AsWritten), es[1..]);
      RecordsKeepKeys(Record(m, es[0], AsWritten), es[1..], AsWritten);
      if exists i :: 0 <= i < |es| && es[i].value.Some? {
        var i :| 0 <= i < |es| && es[i].value.Some?;
        if i > 0 {
          assert es[1..][i - 1].value.Some?;
        }
      }
    }
  }

  /** Corrected, a name is stored iff some object with that name has a value. */
  lemma {:induction false} RecordsCorrectedKeys(m: map<string, int>, es: seq<Entry>, k: string)
    ensures k in Records(m, es, Corrected)
      <==> k in m || exists i :: 0 <= i < |es| && es[i].name == k && es[i].value.Some?
    decreases |es|
  {
    if es != [] {
      RecordsCorrectedKeys(Record(m, es[0], Corrected), es[1..], k);
      if exists i :: 0 <= i < |es[1..]| && es[1..][i].name == k && es[1..][i].value.Some? {
        var i :| 0 <= i < |es[1..]| && es[1..][i].name == k && es[1..][i].value.Some?;
        assert es[i + 1].name == k && es[i + 1].value.Some?;
      }
      if exists i :: 0 <= i < |es| && es[i].name == k && es[i].value.Some? {
        var i :| 0 <= i < |es| && es[i].name == k && es[i].value.Some?;
        if i > 0 {
          assert es[1..][i - 1].name == k;
        }
      }
    }
  }

  /** A line `lines()` gives back unchanged: no line break, no trailing carriage return. */
  predicate LineSafe(l: string) {
    '\n' !in l && !EndsWith(l, "\r")
  }

  predicate AllLineSafe(ls: seq<string>) {
    forall i :: 0 <= i < |ls| ==> LineSafe(ls[i])
  }

  lemma AllLineSafeAppend(a: seq<string>, b: seq<string>)
    requires AllLineSafe(a) && AllLineSafe(b)
    ensures AllLineSafe(a + b)
  {
    forall i | 0 <= i < |a + b| ensures LineSafe((a + b)[i]) {
      if i < |a| {
        assert (a + b)[i] == a[i];
      } else {
        assert (a + b)[i] == b[i - |a|];
      }
    }
  }

  lemma NameLineSafe(n: string, more: bool)
    requires PlainName(n)
    ensures LineSafe(NameLine(n, more))
  {
    var l := NameLine(n, more);
    assert l[|l| - 1] in "\",";
    assert l[|l| - 1..] == [l[|l| - 1]];
  }

  lemma ValueLineSafe(v: nat)
    ensures LineSafe(ValueLine(v))
  {
    var d := NatToDecimal(v);
    var l := ValueLine(v);
    assert forall k :: 0 <= k < |d| ==> IsDigit(d[k]);
    assert l[|l| - 1] == d[|d| - 1];
    assert l[|l| - 1..] == [l[|l| - 1]];
  }

  lemma FixedLineSafe(l: string)
    requires l == "{" || l == "}" || l == "}," || l == "]" || l == "\"stat\": ["
    ensures LineSafe(l)
  {
    assert l[|l| - 1..] == [l[|l| - 1]];
  }

  lemma EntryLinesSafe(e: Entry, closer: string)
    requires FitEntry(e) && LineSafe(closer)
    ensures AllLineSafe(EntryLines(e, closer))
  {
    var tail := if e.value.Some? then [ValueLine(e.value.value)] + [closer] else [closer];
    EntryTailSafe(e, closer);
    FixedLineSafe("{");
    NameLineSafe(e.name, e.value.Some?);
    SafeCons2("{", NameLine(e.name, e.value.Some?), tail);
  }

  /** Two safe lines in front of safe lines. */
  lemma SafeCons2(a: string, b: string, tail: seq<string>)
    requires LineSafe(a) && LineSafe(b) && AllLineSafe(tail)
    ensures AllLineSafe([a] + ([b] + tail))
  {
    SingleSafe(a);
    SingleSafe(b);
    AllLineSafeAppend([b], tail);
    AllLineSafeAppend([a], [b] + tail);
  }

  lemma EntryTailSafe(e: Entry, closer: string)
    requires FitEntry(e) && LineSafe(closer)
    ensures AllLineSafe(if e.value.Some? then [ValueLine(e.value.value)] + [closer] else [closer])
  {
    SingleSafe(closer);
    if e.value.Some? {
      ValueLineSafe(e.value.value);
      SingleSafe(ValueLine(e.value.value));
      AllLineSafeAppend([ValueLine(e.value.value)], [closer]);
    }
  }

  lemma SingleSafe(l: string)
    requires LineSafe(l)
    ensures AllLineSafe([l])
  {
  }

  lemma {:induction false} EntriesSafe(es: seq<Entry>)
    requires forall i :: 0 <= i < |es| ==> FitEntry(es[i])
    ensures AllLineSafe(Entries(es))
    decreases |es|
  {
    if |es| == 1 {
      FixedLineSafe("}");
      EntryLinesSafe(es[0], "}");
    } else if |es| > 1 {
      FixedLineSafe("},");
      EntryLinesSafe(es[0], "},");
      EntriesSafe(es[1..]);
      AllLineSafeAppend(EntryLines(es[0], "},"), Entries(es[1..]));
    }
  }

  lemma FrameSafe(open: string, head: string, rest: seq<string>, close: string, last: string)
    requires open == "{" && head == "\"stat\": [" && close == "]" && last == "}"
    requires AllLineSafe(rest)
    ensures AllLineSafe([open] + ([head] + (rest + ([close] + [last]))))
  {
    FixedLineSafe(open);
    FixedLineSafe(head);
    FixedLineSafe(close);
    FixedLineSafe(last);
    AllLineSafeAppend([close], [last]);
    AllLineSafeAppend(rest, [close] + [last]);
    AllLineSafeAppend([head], rest + ([close] + [last]));
    AllLineSafeAppend([open], [head] + (rest + ([close] + [last])));
  }

  lemma DocumentSafe(es: seq<Entry>)
    requires forall i :: 0 <= i < |es| ==> FitEntry(es[i])
    ensures AllLineSafe(Document(es))
  {
    EntriesSafe(es);
    FrameSafe("{", "\"stat\": [", Entries(es), "]", "}");
  }

  /** The lines of the document survive the trip through one text and `lines()`. */
  lemma DocumentLines(es: seq<Entry>)
    requires forall i :: 0 <= i < |es| ==> FitEntry(es[i])
    ensures Lines(JoinLines(Document(es))) == Document(es)
  {
    DocumentSafe(es);
    LinesOfJoin(Document(es));
  }

  /** So the program's loop, run on the document's text, stores what `Records` says. */
  method ParseDocument(es: seq<Entry>, x: Extraction) returns (stats: map<string, int>)
    requires forall i :: 0 <= i < |es| ==> FitEntry(es[i])
    ensures stats == Records(map[], es, x)
  {
    DocumentLines(es);
    DocumentEffect(es, x);
    stats := ParseStats(JoinLines(Document(es)), x);
  }

  // ---------------------------------------------------------------- the embedded sample

  /** The names of the program's sample, in order. */
  function SampleName(k: nat): string
    requires k < 4
  {
    match k
    case 0 => "outbound>>>blocked>>>traffic>>>downlink"
    case 1 => "inbound>>>api>>>traffic>>>uplink"
    case 2 => "inbound>>>api>>>traffic>>>downlink"
    case _ => "inbound>>>inbound-2a80a671" + ">>>traffic>>>uplink"
  }

  /** The sample's four objects; the first has no value. */
  function SampleEntries(): seq<Entry> {
    [Entry(SampleName(0), None), Entry(SampleName(1), Some(4832)),
     Entry(SampleName(2), Some(8903)), Entry(SampleName(3), Some(362637))]
  }

  lemma SampleName0Plain(n: string)
    requires n == "outbound>>>blocked>>>traffic>>>downlink"
    ensures PlainName(n)
  {
  }

  lemma SampleName1Plain(n: string)
    requires n == "inbound>>>api>>>traffic>>>uplink"
    ensures PlainName(n)
  {
  }

  lemma SampleName2Plain(n: string)
    requires n == "inbound>>>api>>>traffic>>>downlink"
    ensures PlainName(n)
  {
  }

  lemma SampleName3Plain(n: string, p: string, q: string)
    requires p == "inbound>>>inbound-2a80a671" && q == ">>>traffic>>>uplink" && n == p + q
    ensures PlainName(n)
  {
    assert PlainName(p) && PlainName(q);
  }

  lemma SampleFit()
    ensures forall i :: 0 <= i < |SampleEntries()| ==> FitEntry(SampleEntries()[i])
  {
    SampleName0Plain(SampleName(0));
    SampleName1Plain(SampleName(1));
    SampleName2Plain(SampleName(2));
    SampleName3Plain(SampleName(3), "inbound>>>inbound-2a80a671", ">>>traffic>>>uplink");
  }

  /**
   * As written, the sample's three values all land on the key ": ", so one
   * entry remains, holding the last value.
   */
  lemma SampleAsWritten(es: seq<Entry>)
    requires es == SampleEntries()
    ensures Run(Start, Document(es), AsWritten).stats == map[": " := 362637]
  {
    SampleFit();
    DocumentOfFour(es, AsWritten);
    OneStored(es[0], es[1], es[2], es[3]);
  }

  /** As written, every object with a value lands on ": ", so only the last value survives. */
  lemma OneStored(e0: Entry, e1: Entry, e2: Entry, e3: Entry)
    requires e3.value.Some?
    ensures Record(Record(Record(Record(map[], e0, AsWritten), e1, AsWritten), e2, AsWritten), e3, AsWritten)
      == map[": " := e3.value.value]
  {
    var m3 := Record(Record(Record(map[], e0, AsWritten), e1, AsWritten), e2, AsWritten);
    assert m3.Keys <= {": "};
  }

  lemma DocumentOfFour(es: seq<Entry>, x: Extraction)
    requires |es| == 4 && forall i :: 0 <= i < |es| ==> FitEntry(es[i])
    ensures Run(Start, Document(es), x).stats
      == Record(Record(Record(Record(map[], es[0], x), es[1], x), es[2], x), es[3], x)
  {
    var four := [es[0], es[1], es[2], es[3]];
    assert es == four;
    RecordsOfFour(map[], es[0], es[1], es[2], es[3], x);
    assert Records(map[], es, x) == Records(map[], four, x);
    DocumentEffect(es, x);
  }

  lemma RecordsOfFour(m: map<string, int>, e0: Entry, e1: Entry, e2: Entry, e3: Entry, x: Extraction)
    ensures Records(m, [e0, e1, e2, e3], x) == Record(Record(Record(Record(m, e0, x), e1, x), e2, x), e3, x)
  {
    var m1 := Record(m, e0, x);
    var m2 := Record(m1, e1, x);
    var m3 := Record(m2, e2, x);
    assert [e0, e1, e2, e3][1..] == [e1, e2, e3];
    assert [e1, e2, e3][1..] == [e2, e3];
    assert [e2, e3][1..] == [e3];
    assert [e3][1..] == [];
    assert Records(m3, [e3], x) == Records(Record(m3, e3, x), [], x);
    assert Records(m2, [e2, e3], x) == Records(m3, [e3], x);
    assert Records(m1, [e1, e2, e3], x) == Records(m2, [e2, e3], x);
    assert Records(m, [e0, e1, e2, e3], x) == Records(m1, [e1, e2, e3], x);
  }

  /** Corrected, the sample gives the three named values, and the object without a value is skipped. */
  lemma SampleCorrected(es: seq<Entry>, a: string, b: string, c: string, d: string)
    requires es == SampleEntries()
    requires a == SampleName(0) && b == SampleName(1) && c == SampleName(2) && d == SampleName(3)
    ensures Run(Start, Document(es), Corrected).stats == map[b := 4832, c := 8903, d := 362637]
    ensures a !in Run(Start, Document(es), Corrected).stats
    ensures |Run(Start, Document(es), Corrected).stats| == 3
  {
    SampleFit();
    DocumentOfFour(es, Corrected);
    SampleNamesDistinct(a, b, c, d);
    ThreeStored(a, b, c, d, 4832, 8903, 362637);
  }

  /** Four objects with distinct names, the first without a value, leave three entries. */
  lemma ThreeStored(a: string, b: string, c: string, d: string, u: nat, v: nat, w: nat)
    requires a != b && a != c && a != d && b != c && b != d && c != d
    ensures var r := Record(Record(Record(Record(map[], Entry(a, None), Corrected),
                              Entry(b, Some(u)), Corrected), Entry(c, Some(v)), Corrected), Entry(d, Some(w)), Corrected);
      r == map[b := u, c := v, d := w] && a !in r && |r| == 3
  {
    var r := map[b := u, c := v, d := w];
    assert r.Keys == {b, c, d};
  }

  lemma SampleNamesDistinct(a: string, b: string, c: string, d: string)
    requires a == SampleName(0) && b == SampleName(1) && c == SampleName(2) && d == SampleName(3)
    ensures a != b && a != c && a != d && b != c && b != d && c != d
  {
    assert b[26] != c[26];
    assert |d| != |b| && |d| != |c|;
    assert a[0] != b[0] && a[0] != c[0] && a[0] != d[0];
  }
}
