/**
 * The traffic service: it reads xray's counters (`xray api statsquery`, whose
 * protobuf text output is scanned line by line) and charges them to the
 * enabled inbounds, disabling an inbound once its quota is used up.
 *
 * Running the process and writing the database are outside the model: the
 * process outcome is a parameter and the database updates are returned as a
 * list of writes.
 */
module TrafficService {
  import opened Wrappers
  import opened Text
  import opened ApiErrors
  import opened StoredInbound

  // ---------------------------------------------------------------- reading the counters

  /** What running `xray api statsquery` gave: no process at all, or an exit status and its stdout. */
  datatype XrayOutput =
    | SpawnFailed(reason: string)
    | Exited(success: bool, stdout: string)

  /** The scanner's state: the name of the counter being read and the counters stored so far. */
  datatype Scan = Scan(current: string, stats: map<string, int>)

  const Fresh: Scan := Scan("", map[])

  const NameKey: string := "name:"
  const ValueKey: string := "value:"

  /** The text after `key` on a line, up to the next `key` (`line.split(key).nth(1)`). */
  function FieldAfter(line: string, key: string): (r: Option<string>)
    requires key != []
    ensures StartsWith(line, key) ==> r.Some?
  {
    assert StartsWith(line, key) ==> OccursAt(line, key, 0);
    SplitNth(line, key, 1)
  }

  /** The number on a `value:` line: trimmed, trailing '>' removed, trimmed again, parsed as i64. */
  function ValueOfField(part: string): (r: Option<int>)
    ensures r.Some? ==> I64Min <= r.value <= I64Max
  {
    ParseI64(TrimRust(TrimEndMatches(TrimRust(part), '>')))
  }

  /** What one line of the output says, if anything. */
  datatype Field = NameField(name: string) | ValueField(value: int) | NoField

  /**
   * A trimmed line starting "name:" names the counter (quotes stripped); one
   * starting "value:" carries its value when that parses as an i64.
   */
  function FieldOf(raw: string): (f: Field)
    ensures f.ValueField? ==> I64Min <= f.value <= I64Max
  {
    var line := TrimRust(raw);
    if StartsWith(line, NameKey) then NamedIn(line)
    else if StartsWith(line, ValueKey) then ValuedIn(line)
    else NoField
  }

  /** The counter name on a "name:" line, its quotes stripped. */
  function NamedIn(line: string): (f: Field)
    ensures f.NameField? || f.NoField?
  {
    match FieldAfter(line, NameKey)
    case Some(part) => NameField(TrimMatches(TrimRust(part), '"'))
    case None => NoField
  }

  /** The number on a "value:" line, when it parses. */
  function ValuedIn(line: string): (f: Field)
    ensures f.ValueField? || f.NoField?
    ensures f.ValueField? ==> I64Min <= f.value <= I64Max
  {
    match FieldAfter(line, ValueKey)
    case Some(part) =>
      (match ValueOfField(part)
       case Some(v) => ValueField(v)
       case None => NoField)
    case None => NoField
  }

  /** One line of the output: a name replaces the current one, a value is stored under it. */
  function Absorb(st: Scan, raw: string): (r: Scan)
    ensures forall k :: k in st.stats && k != st.current ==> k in r.stats && r.stats[k] == st.stats[k]
    ensures r.stats.Keys <= st.stats.Keys + {st.current}
    ensures r.current != st.current ==> r.stats == st.stats
    ensures "" !in st.stats ==> "" !in r.stats
  {
    match FieldOf(raw)
    case NameField(n) => Scan(n, st.stats)
    case ValueField(v) => if st.current != "" then Scan(st.current, st.stats[st.current := v]) else st
    case NoField => st
  }

  /** The lines absorbed one after the other. */
  function ScanLines(st: Scan, lines: seq<string>): (r: Scan)
    ensures "" !in st.stats ==> "" !in r.stats
    decreases |lines|
  {
    if lines == [] then st else ScanLines(Absorb(st, lines[0]), lines[1..])
  }

  lemma {:induction false} ScanLinesAppend(st: Scan, a: seq<string>, b: seq<string>)
    ensures ScanLines(st, a + b) == ScanLines(ScanLines(st, a), b)
    decreases |a|
  {
    if a == [] {
      assert a + b == b;
    } else {
      assert (a + b)[1..] == a[1..] + b;
      ScanLinesAppend(Absorb(st, a[0]), a[1..], b);
    }
  }

  /** The counters a successful query reports: never one with an empty name. */
  function StatsOfText(stdout: string): (m: map<string, int>)
    ensures "" !in m
  {
    ScanLines(Fresh, Lines(stdout)).stats
  }

  /** The outcome of `query_all_xray_stats`. */
  function QueryOutcome(out: XrayOutput): (r: Result<map<string, int>, ApiError>)
    ensures out.SpawnFailed? ==> r.Err? && r.error.SystemError?
    ensures out.Exited? && !out.success ==> r == Ok(map[])
    ensures r.Ok? ==> "" !in r.value
  {
    match out
    case SpawnFailed(reason) => Err(SystemError("Xray API call failed: " + reason))
    case Exited(success, stdout) => if success then Ok(StatsOfText(stdout)) else Ok(map[])
  }

  /** The body of the scan loop: one line of output against the current name and the counters so far. */
  method AbsorbLine(current: string, stats: map<string, int>, raw: string) returns (currentName: string, stats': map<string, int>)
    ensures Scan(currentName, stats') == Absorb(Scan(current, stats), raw)
  {
    currentName := current;
    stats' := stats;
    var line := TrimRust(raw);
    if StartsWith(line, NameKey) {
      assert FieldOf(raw) == NamedIn(line);
      var namePart := FieldAfter(line, NameKey);
      if namePart.Some? {
        currentName := TrimMatches(TrimRust(namePart.value), '"');
      }
    } else if StartsWith(line, ValueKey) {
      assert FieldOf(raw) == ValuedIn(line);
      var valueStr := FieldAfter(line, ValueKey);
      if valueStr.Some? {
        var cleanVal := TrimRust(TrimEndMatches(TrimRust(valueStr.value), '>'));
        var value := ParseI64(cleanVal);
        assert value == ValueOfField(valueStr.value);
        if value.Some? && currentName != "" {
          stats' := stats[currentName := value.value];
        }
      }
    } else {
      assert FieldOf(raw) == NoField;
    }
  }

  /** `query_all_xray_stats`: the scan loop over the lines of a successful run. */
  method QueryAllXrayStats(out: XrayOutput) returns (r: Result<map<string, int>, ApiError>)
    ensures r == QueryOutcome(out)
  {
    if out.SpawnFailed? {
      return Err(SystemError("Xray API call failed: " + out.reason));
    }
    if !out.success {
      return Ok(map[]);
    }
    var lines := Lines(out.stdout);
    var stats: map<string, int> := map[];
    var currentName := "";
    var i := 0;
    while i < |lines|
      invariant 0 <= i <= |lines|
      invariant ScanLines(Scan(currentName, stats), lines[i..]) == ScanLines(Fresh, lines)
    {
      assert lines[i..][1..] == lines[i + 1..];
      currentName, stats := AbsorbLine(currentName, stats, lines[i]);
      i := i + 1;
    }
    assert lines[i..] == [];
    return Ok(stats);
  }

  // ---------------------------------------------------------------- the output format

  /** One counter as xray prints it. */
  datatype Counter = Counter(name: string, value: nat)

  const Indent: string := "  "
  const StatOpen: string := "stat: <"
  const StatClose: string := ">"

  function NameText(n: string): string { "name: \"" + n + "\"" }
  function ValueText(v: nat): string { "value: " + NatToDecimal(v) }

  /** The four lines of one `stat` block. */
  function StatBlock(c: Counter): seq<string> {
    [StatOpen] + ([Indent + NameText(c.name)] + ([Indent + ValueText(c.value)] + [StatClose]))
  }

  function Render(cs: seq<Counter>): seq<string>
    decreases |cs|
  {
    if cs == [] then [] else StatBlock(cs[0]) + Render(cs[1..])
  }

  /** A counter name the format carries unchanged. */
  predicate PlainStatName(n: string) {
    n != [] && '"' !in n && ':' !in n && '\n' !in n
  }

  predicate FitCounter(c: Counter) {
    PlainStatName(c.name) && c.value <= I64Max
  }

  /** The counters stored one after another: a later one with the same name wins. */
  function Collect(m: map<string, int>, cs: seq<Counter>): map<string, int>
    decreases |cs|
  {
    if cs == [] then m else Collect(m[cs[0].name := cs[0].value], cs[1..])
  }

  lemma IndentBlank()
    ensures forall i :: 0 <= i < |Indent| ==> IsRustWhitespace(Indent[i])
  {
  }

  /** Leading indentation does not change what an already trimmed line says. */
  lemma PaddedField(pad: string, l: string)
    requires forall i :: 0 <= i < |pad| ==> IsRustWhitespace(pad[i])
    requires l != [] && !IsRustWhitespace(l[0]) && !IsRustWhitespace(l[|l| - 1])
    ensures FieldOf(pad + l) == FieldOf(l)
  {
    TrimPadded(pad, l, IsRustWhitespace);
    TrimOfTrimmed(l, IsRustWhitespace);
  }

  lemma NameLineOf(line: string, part: string)
    requires TrimRust(line) == line && StartsWith(line, NameKey)
    requires FieldAfter(line, NameKey) == Some(part)
    ensures FieldOf(line) == NameField(TrimMatches(TrimRust(part), '"'))
  {
  }

  lemma ValueLineOf(line: string, part: string, v: int)
    requires TrimRust(line) == line && line != [] && line[0] == 'v' && StartsWith(line, ValueKey)
    requires FieldAfter(line, ValueKey) == Some(part) && ValueOfField(part) == Some(v)
    ensures FieldOf(line) == ValueField(v)
  {
    ValuedInOf(line, part, v);
    NotNamed(line);
    ValuedField(line, v);
  }

  lemma ValuedInOf(line: string, part: string, v: int)
    requires FieldAfter(line, ValueKey) == Some(part) && ValueOfField(part) == Some(v)
    ensures ValuedIn(line) == ValueField(v)
  {
  }

  lemma ValuedField(line: string, v: int)
    requires StartsWith(line, ValueKey) && !StartsWith(line, NameKey) && TrimRust(line) == line
    requires ValuedIn(line) == ValueField(v)
    ensures FieldOf(line) == ValueField(v)
  {
  }

  lemma NotNamed(line: string)
    requires line != [] && line[0] != 'n'
    ensures !StartsWith(line, NameKey)
  {
    if |NameKey| <= |line| {
      assert line[..|NameKey|][0] == line[0];
    }
  }

  /** The text after the key, when nothing later on the line holds a ':'. */
  lemma KeyedRest(line: string, key: string, k: nat)
    requires key != [] && k < |key| && key[k] == ':'
    requires StartsWith(line, key) && ':' !in line[|key|..]
    ensures FieldAfter(line, key) == Some(line[|key|..])
  {
    FindFirstAt(line, key, 0);
    NoOccurrenceWithout(line[|key|..], key, k);
    SplitNoSeparator(line[|key|..], key);
  }

  lemma NameLineShape(n: string)
    requires PlainStatName(n)
    ensures var line := NameText(n);
      line != [] && !IsRustWhitespace(line[0]) && !IsRustWhitespace(line[|line| - 1]) &&
      StartsWith(line, NameKey) && line[|NameKey|..] == " " + ("\"" + n + "\"")
  {
    var line := NameText(n);
    assert line == NameKey + (" " + ("\"" + n + "\""));
    assert line[0] == 'n' && line[|line| - 1] == '"';
  }

  lemma NameLineAfter(n: string)
    requires PlainStatName(n)
    ensures FieldAfter(NameText(n), NameKey) == Some(" " + ("\"" + n + "\""))
  {
    NameLineShape(n);
    KeyedRest(NameText(n), NameKey, 4);
  }

  lemma NameLineField(n: string)
    requires PlainStatName(n)
    ensures FieldOf(Indent + NameText(n)) == NameField(n)
  {
    var line := NameText(n);
    var q := "\"" + n + "\"";
    NameLineShape(n);
    NameLineAfter(n);
    PaddedField(Indent, line);
    TrimOfTrimmed(line, IsRustWhitespace);
    TrimPadded(" ", q, IsRustWhitespace);
    QuotesTrimmed(n);
    NameLineOf(line, " " + q);
  }

  lemma QuotesTrimmed(n: string)
    requires n != [] && '"' !in n
    ensures TrimMatches("\"" + n + "\"", '"') == n
  {
    var q := "\"" + n + "\"";
    assert q[1..] == n + "\"";
    assert n[0] in n;
    assert TrimStart(q, x => x == '"') == n + "\"";
    assert (n + "\"")[..|n|] == n;
    assert n[|n| - 1] in n;
  }

  lemma DecimalFieldValue(d: string, v: nat)
    requires v <= I64Max && d == NatToDecimal(v)
    ensures ValueOfField(" " + d) == Some(v)
  {
    assert IsDigit(d[0]) && IsDigit(d[|d| - 1]);
    TrimPadded(" ", d, IsRustWhitespace);
    TrimOfTrimmed(d, IsRustWhitespace);
    ParseI64OfDecimal(v);
  }

  lemma ValueLineShape(v: nat)
    ensures var line := ValueText(v);
      line != [] && line[0] == 'v' && !IsRustWhitespace(line[0]) && !IsRustWhitespace(line[|line| - 1]) &&
      StartsWith(line, ValueKey) && line[|ValueKey|..] == " " + NatToDecimal(v)
  {
    var d := NatToDecimal(v);
    var line := ValueText(v);
    assert line == ValueKey + (" " + d);
    assert IsDigit(d[|d| - 1]);
    assert line[|line| - 1] == d[|d| - 1];
  }

  lemma ValueLineAfter(v: nat)
    ensures FieldAfter(ValueText(v), ValueKey) == Some(" " + NatToDecimal(v))
  {
    var d := NatToDecimal(v);
    ValueLineShape(v);
    assert forall k :: 0 <= k < |d| ==> IsDigit(d[k]);
    KeyedRest(ValueText(v), ValueKey, 5);
  }

  lemma ValueLineField(v: nat)
    requires v <= I64Max
    ensures FieldOf(Indent + ValueText(v)) == ValueField(v)
  {
    var line := ValueText(v);
    ValueLineShape(v);
    ValueLineAfter(v);
    DecimalFieldValue(NatToDecimal(v), v);
    IndentBlank();
    PaddedField(Indent, line);
    TrimOfTrimmed(line, IsRustWhitespace);
    ValueLineOf(line, " " + NatToDecimal(v), v);
  }

  /** A trimmed line starting with neither 'n' nor 'v' says nothing. */
  lemma OtherLineField(l: string)
    requires l != [] && !IsRustWhitespace(l[0]) && !IsRustWhitespace(l[|l| - 1])
    requires l[0] != 'n' && l[0] != 'v'
    ensures FieldOf(l) == NoField
  {
    TrimOfTrimmed(l, IsRustWhitespace);
    assert l[0] != NameKey[0] && l[0] != ValueKey[0];
  }

  lemma FrameLineField(l: string)
    requires l == StatOpen || l == StatClose
    ensures FieldOf(l) == NoField
  {
    assert l[0] == 's' || l[0] == '>';
    assert l[|l| - 1] == '<' || l[|l| - 1] == '>';
    OtherLineField(l);
  }

  lemma ScanCons(st: Scan, l: string, rest: seq<string>)
    ensures ScanLines(st, [l] + rest) == ScanLines(Absorb(st, l), rest)
  {
    assert ([l] + rest)[1..] == rest;
  }

  lemma AbsorbName(st: Scan, n: string)
    requires PlainStatName(n)
    ensures Absorb(st, Indent + NameText(n)) == Scan(n, st.stats)
  {
    NameLineField(n);
  }

  lemma AbsorbValue(st: Scan, v: nat)
    requires v <= I64Max
    ensures Absorb(st, Indent + ValueText(v)) ==
      if st.current != "" then Scan(st.current, st.stats[st.current := v]) else st
  {
    ValueLineField(v);
  }

  lemma AbsorbFrame(st: Scan, l: string)
    requires l == StatOpen || l == StatClose
    ensures Absorb(st, l) == st
  {
    FrameLineField(l);
  }

  lemma BlockAbsorbed(st: Scan, c: Counter)
    requires FitCounter(c)
    ensures ScanLines(st, StatBlock(c)) == Scan(c.name, st.stats[c.name := c.value])
  {
    var nl := Indent + NameText(c.name);
    var vl := Indent + ValueText(c.value);
    var s1 := Scan(c.name, st.stats);
    var s2 := Scan(c.name, st.stats[c.name := c.value]);
    AbsorbFrame(st, StatOpen);
    AbsorbName(st, c.name);
    AbsorbValue(s1, c.value);
    AbsorbFrame(s2, StatClose);
    ScanFour(st, StatOpen, nl, vl, StatClose, st, s1, s2, s2);
  }

  lemma ScanFour(st: Scan, a: string, b: string, c: string, d: string, s1: Scan, s2: Scan, s3: Scan, s4: Scan)
    requires Absorb(st, a) == s1 && Absorb(s1, b) == s2 && Absorb(s2, c) == s3 && Absorb(s3, d) == s4
    ensures ScanLines(st, [a] + ([b] + ([c] + [d]))) == s4
  {
    ScanCons(st, a, [b] + ([c] + [d]));
    ScanCons(s1, b, [c] + [d]);
    ScanCons(s2, c, [d]);
    ScanCons(s3, d, []);
  }

  lemma BlockThen(st: Scan, c: Counter, rest: seq<string>)
    requires FitCounter(c)
    ensures ScanLines(st, StatBlock(c) + rest) == ScanLines(Scan(c.name, st.stats[c.name := c.value]), rest)
  {
    ScanLinesAppend(st, StatBlock(c), rest);
    BlockAbsorbed(st, c);
  }

  lemma RenderStep(st: Scan, cs: seq<Counter>)
    requires cs != [] && FitCounter(cs[0])
    ensures ScanLines(st, Render(cs)) ==
      ScanLines(Scan(cs[0].name, st.stats[cs[0].name := cs[0].value]), Render(cs[1..]))
  {
    BlockThen(st, cs[0], Render(cs[1..]));
  }

  lemma {:induction false} RenderAbsorbed(st: Scan, cs: seq<Counter>)
    requires forall i :: 0 <= i < |cs| ==> FitCounter(cs[i])
    ensures ScanLines(st, Render(cs)).stats == Collect(st.stats, cs)
    decreases |cs|
  {
    if cs != [] {
      forall i | 0 <= i < |cs[1..]| ensures FitCounter(cs[1..][i]) {
        assert cs[1..][i] == cs[i + 1];
      }
      RenderStep(st, cs);
      RenderAbsorbed(Scan(cs[0].name, st.stats[cs[0].name := cs[0].value]), cs[1..]);
    }
  }

  /** No line of the output holds a line break or ends in a carriage return. */
  lemma {:induction false} RenderSafe(cs: seq<Counter>)
    requires forall i :: 0 <= i < |cs| ==> FitCounter(cs[i])
    ensures forall i :: 0 <= i < |Render(cs)| ==> '\n' !in Render(cs)[i] && !EndsWith(Render(cs)[i], "\r")
    decreases |cs|
  {
    if cs != [] {
      var b := StatBlock(cs[0]);
      var n := Indent + NameText(cs[0].name);
      var v := Indent + ValueText(cs[0].value);
      var d := NatToDecimal(cs[0].value);
      assert forall k :: 0 <= k < |d| ==> IsDigit(d[k]);
      assert n[|n| - 1..] == "\"";
      assert v[|v| - 1..] == [d[|d| - 1]];
      assert StatOpen[|StatOpen| - 1..] == "<";
      RenderSafe(cs[1..]);
      var r := Render(cs);
      forall i | 0 <= i < |r| ensures '\n' !in r[i] && !EndsWith(r[i], "\r") {
        if i >= 4 {
          assert r[i] == Render(cs[1..])[i - 4];
        }
      }
    }
  }

  /** Reading what xray prints gives back its counters, the later of two same-named ones winning. */
  lemma StatsRoundTrip(cs: seq<Counter>)
    requires forall i :: 0 <= i < |cs| ==> FitCounter(cs[i])
    ensures StatsOfText(JoinLines(Render(cs))) == Collect(map[], cs)
  {
    RenderSafe(cs);
    LinesOfJoin(Render(cs));
    RenderAbsorbed(Fresh, cs);
  }

  /** A value line before any name line stores nothing. */
  lemma ValueWithoutNameIgnored(v: nat, rest: seq<string>)
    requires v <= I64Max
    ensures ScanLines(Fresh, [Indent + ValueText(v)] + rest) == ScanLines(Fresh, rest)
  {
    AbsorbValue(Fresh, v);
    ScanCons(Fresh, Indent + ValueText(v), rest);
  }

  /** A block whose name line is missing is charged to the name read before it. */
  lemma NamePersists(st: Scan, v: nat)
    requires v <= I64Max && st.current != ""
    ensures ScanLines(st, [StatOpen] + ([Indent + ValueText(v)] + [StatClose])).stats == st.stats[st.current := v]
  {
    var vl := Indent + ValueText(v);
    var s1 := Scan(st.current, st.stats[st.current := v]);
    AbsorbFrame(st, StatOpen);
    AbsorbValue(st, v);
    AbsorbFrame(s1, StatClose);
    ScanCons(st, StatOpen, [vl] + [StatClose]);
    ScanCons(st, vl, [StatClose]);
    ScanCons(s1, StatClose, []);
  }

  // ---------------------------------------------------------------- charging the inbounds

  function UpKey(tag: string): string { "inbound>>>" + tag + ">>>traffic>>>uplink" }
  function DownKey(tag: string): string { "inbound>>>" + tag + ">>>traffic>>>downlink" }

  /** The tag sits between a fixed prefix and suffix in both stat names. */
  lemma KeysFrameTag(tag: string)
    ensures var u := UpKey(tag); |u| == |tag| + 29 && u[10..|u| - 19] == tag && u[|u| - 6..] == "uplink"
    ensures var d := DownKey(tag); |d| == |tag| + 31 && d[10..|d| - 21] == tag && d[|d| - 8..] == "downlink"
  {
    var u, d := UpKey(tag), DownKey(tag);
    assert u[10..|u| - 19] == tag;
    assert d[10..|d| - 21] == tag;
  }

  /** Distinct inbounds read distinct counters, and no uplink name is a downlink name. */
  lemma CounterNamesDistinct(a: string, b: string)
    ensures UpKey(a) == UpKey(b) ==> a == b
    ensures DownKey(a) == DownKey(b) ==> a == b
    ensures UpKey(a) != DownKey(b)
  {
    KeysFrameTag(a);
    KeysFrameTag(b);
    var u, d := UpKey(a), DownKey(b);
    assert u[|u| - 6] == u[|u| - 6..][0] == 'u';
    assert d[|d| - 6] == d[|d| - 8..][2] == 'w';
  }

  /** A counter the query did not report counts as zero. */
  function CounterOf(stats: map<string, int>, key: string): (n: int)
    ensures key !in stats ==> n == 0
    ensures key in stats ==> n == stats[key]
  {
    if key in stats then stats[key] else 0
  }

  /** The database update for one inbound: new counters and the enable flag (1 or 0). */
  datatype Write = Write(id: string, up: int, down: int, enable: int)

  /** A quota of zero means unlimited. */
  predicate QuotaReached(total: int, up: int, down: int): (r: bool)
    ensures total <= 0 ==> !r
    ensures total > 0 ==> (r <==> up + down >= total)
  {
    total > 0 && up + down >= total
  }

  /** The write for one inbound, if xray reported any traffic for its tag. */
  function ChargeInbound(row: Row, stats: map<string, int>): (w: Option<Write>)
    ensures w.Some? ==> w.value.id == row.id && (w.value.enable == 0 || w.value.enable == 1)
    ensures w.Some? ==> (w.value.enable == 0 <==> QuotaReached(row.total, w.value.up, w.value.down))
  {
    var tag := TagOf(row);
    var uplink := CounterOf(stats, UpKey(tag));
    var downlink := CounterOf(stats, DownKey(tag));
    if uplink > 0 || downlink > 0 then
      var newUp := row.up + uplink;
      var newDown := row.down + downlink;
      Some(Write(row.id, newUp, newDown, if QuotaReached(row.total, newUp, newDown) then 0 else 1))
    else None
  }

  /** The writes of none or one inbound. */
  function AsWrites(w: Option<Write>): (ws: seq<Write>)
    ensures |ws| <= 1
  {
    match w
    case Some(x) => [x]
    case None => []
  }

  /** The writes for the rows in order: one per inbound that had traffic. */
  function Writes(rows: seq<Row>, stats: map<string, int>): (ws: seq<Write>)
    ensures |ws| <= |rows|
    decreases |rows|
  {
    if rows == [] then []
    else Writes(rows[..|rows| - 1], stats) + AsWrites(ChargeInbound(rows[|rows| - 1], stats))
  }

  lemma WritesExtend(rows: seq<Row>, i: nat, stats: map<string, int>)
    requires i < |rows|
    ensures Writes(rows[..i + 1], stats) == Writes(rows[..i], stats) + AsWrites(ChargeInbound(rows[i], stats))
  {
    assert rows[..i + 1][..i] == rows[..i];
  }

  /** Some write in the round disables its inbound. */
  predicate AnyDisabled(ws: seq<Write>) {
    exists j :: 0 <= j < |ws| && ws[j].enable == 0
  }

  lemma ReapplyAppend(ws: seq<Write>, w: Write)
    ensures AnyDisabled(ws + [w]) <==> AnyDisabled(ws) || w.enable == 0
  {
    if exists j :: 0 <= j < |ws| && ws[j].enable == 0 {
      var j :| 0 <= j < |ws| && ws[j].enable == 0;
      assert (ws + [w])[j] == ws[j];
    }
    if w.enable == 0 {
      assert (ws + [w])[|ws|] == w;
    }
  }

  lemma ChargeWhen(row: Row, stats: map<string, int>, uplink: int, downlink: int, enable: int)
    requires uplink == CounterOf(stats, UpKey(TagOf(row))) && downlink == CounterOf(stats, DownKey(TagOf(row)))
    requires uplink > 0 || downlink > 0
    requires enable == if QuotaReached(row.total, row.up + uplink, row.down + downlink) then 0 else 1
    ensures ChargeInbound(row, stats) == Some(Write(row.id, row.up + uplink, row.down + downlink, enable))
  {
  }

  lemma NoChargeWhen(row: Row, stats: map<string, int>, uplink: int, downlink: int)
    requires uplink == CounterOf(stats, UpKey(TagOf(row))) && downlink == CounterOf(stats, DownKey(TagOf(row)))
    requires uplink <= 0 && downlink <= 0
    ensures ChargeInbound(row, stats) == None
  {
  }

  /** The row as the database holds it after its write. */
  function Written(row: Row, w: Write): Row {
    row.(up := w.up, down := w.down, enable := w.enable == 1)
  }

  /** After its write an inbound is enabled exactly when it is unlimited or still under its quota. */
  lemma ChargedRowRespectsQuota(row: Row, stats: map<string, int>)
    requires ChargeInbound(row, stats).Some?
    ensures var r := Written(row, ChargeInbound(row, stats).value);
      r.enable <==> (r.total <= 0 || r.up + r.down < r.total)
  {
  }

  /** A write charges exactly what xray reported for the inbound's tag, and only when it reported traffic. */
  lemma ChargeAddsReportedTraffic(row: Row, stats: map<string, int>)
    ensures var u := CounterOf(stats, UpKey(TagOf(row)));
      var d := CounterOf(stats, DownKey(TagOf(row)));
      ChargeInbound(row, stats).Some? <==> (u > 0 || d > 0)
    ensures ChargeInbound(row, stats).Some? ==>
      ChargeInbound(row, stats).value.up - row.up == CounterOf(stats, UpKey(TagOf(row))) &&
      ChargeInbound(row, stats).value.down - row.down == CounterOf(stats, DownKey(TagOf(row)))
  {
  }

  /** End to end: the uplink and downlink blocks xray prints for a tag become one write adding both. */
  lemma ReportedTrafficCharged(row: Row, u: nat, d: nat)
    requires u <= I64Max && d <= I64Max && (u > 0 || d > 0)
    requires PlainStatName(TagOf(row)) || TagOf(row) == ""
    ensures var cs := [Counter(UpKey(TagOf(row)), u), Counter(DownKey(TagOf(row)), d)];
      var w := ChargeInbound(row, StatsOfText(JoinLines(Render(cs))));
      w == Some(Write(row.id, row.up + u, row.down + d, if QuotaReached(row.total, row.up + u, row.down + d) then 0 else 1))
  {
    var tag := TagOf(row);
    var up := UpKey(tag);
    var down := DownKey(tag);
    KeysPlain(tag);
    KeysDiffer(tag);
    TwoCountersRead(up, down, u, d);
    var m := map[up := u][down := d];
    assert CounterOf(m, up) == u && CounterOf(m, down) == d;
    ChargeWhen(row, m, u, d, if QuotaReached(row.total, row.up + u, row.down + d) then 0 else 1);
  }

  lemma TwoCountersRead(up: string, down: string, u: nat, d: nat)
    requires FitCounter(Counter(up, u)) && FitCounter(Counter(down, d))
    ensures StatsOfText(JoinLines(Render([Counter(up, u), Counter(down, d)]))) == map[up := u][down := d]
  {
    StatsRoundTrip([Counter(up, u), Counter(down, d)]);
    CollectTwo(Counter(up, u), Counter(down, d));
  }

  lemma CollectTwo(a: Counter, b: Counter)
    ensures Collect(map[], [a, b]) == map[a.name := a.value][b.name := b.value]
  {
    var m1 := map[a.name := a.value];
    assert [a, b][0] == a && [a, b][1..] == [b];
    assert Collect(map[], [a, b]) == Collect(m1, [b]);
    assert [b][0] == b && [b][1..] == [];
    assert Collect(m1, [b]) == Collect(m1[b.name := b.value], []);
  }

  lemma KeysPlain(tag: string)
    requires PlainStatName(tag) || tag == ""
    ensures PlainStatName(UpKey(tag)) && PlainStatName(DownKey(tag))
  {
    var p := "inbound>>>";
    assert '"' !in p && ':' !in p && '\n' !in p;
    var a := ">>>traffic>>>uplink";
    var b := ">>>traffic>>>downlink";
    assert '"' !in a && ':' !in a && '\n' !in a;
    assert '"' !in b && ':' !in b && '\n' !in b;
    assert UpKey(tag) == p + tag + a;
    assert DownKey(tag) == p + tag + b;
  }

  /** The uplink and downlink counters of a tag are distinct entries. */
  lemma KeysDiffer(tag: string)
    ensures UpKey(tag) != DownKey(tag)
  {
    assert |UpKey(tag)| != |DownKey(tag)|;
  }

  /** The outcome of one run of `update_traffic_stats`. */
  datatype Round = Round(queried: bool, writes: seq<Write>, reapply: bool)

  /** The counters an update works with: an error from the query counts as none at all. */
  function StatsOrEmpty(out: XrayOutput): map<string, int> {
    match QueryOutcome(out)
    case Ok(m) => m
    case Err(_) => map[]
  }

  /** The body of the per-row loop: the counters of the row's tag, and a write when either moved. */
  method ChargeRow(row: Row, statsMap: map<string, int>) returns (w: Option<Write>)
    ensures w == ChargeInbound(row, statsMap)
  {
    var tag := TagOf(row);
    var uplink := CounterOf(statsMap, UpKey(tag));
    var downlink := CounterOf(statsMap, DownKey(tag));
    if uplink > 0 || downlink > 0 {
      var newUp := row.up + uplink;
      var newDown := row.down + downlink;
      var enable := 1;
      if row.total > 0 && newUp + newDown >= row.total {
        enable := 0;
      }
      ChargeWhen(row, statsMap, uplink, downlink, enable);
      w := Some(Write(row.id, newUp, newDown, enable));
    } else {
      NoChargeWhen(row, statsMap, uplink, downlink);
      w := None;
    }
  }

  /**
   * `update_traffic_stats` over the enabled rows: no query at all when there
   * are none; otherwise one write per inbound with traffic, and a single
   * reapply of the xray configuration if any of them disabled its inbound.
   */
  /** One pass of the per-row loop: the row's write, if any, and the reapply flag it raises. */
  method ChargeNext(rows: seq<Row>, i: nat, statsMap: map<string, int>, writes: seq<Write>, needsReapply: bool)
    returns (writes': seq<Write>, needsReapply': bool)
    requires i < |rows|
    requires writes == Writes(rows[..i], statsMap)
    requires needsReapply <==> AnyDisabled(writes)
    ensures writes' == Writes(rows[..i + 1], statsMap)
    ensures needsReapply' <==> AnyDisabled(writes')
  {
    WritesExtend(rows, i, statsMap);
    writes', needsReapply' := writes, needsReapply;
    var charged := ChargeRow(rows[i], statsMap);
    if charged.Some? {
      var w := charged.value;
      if w.enable == 0 {
        needsReapply' := true;
      }
      ReapplyAppend(writes, w);
      writes' := writes + [w];
    } else {
      assert writes + [] == writes;
    }
  }

  method UpdateTrafficStats(rows: seq<Row>, out: XrayOutput) returns (round: Round)
    ensures rows == [] ==> round == Round(false, [], false)
    ensures rows != [] ==> round.queried && round.writes == Writes(rows, StatsOrEmpty(out))
    ensures round.reapply <==> AnyDisabled(round.writes)
  {
    if rows == [] {
      return Round(false, [], false);
    }
    var needsReapply := false;
    var queried := QueryAllXrayStats(out);
    var statsMap := if queried.Ok? then queried.value else map[];
    var writes: seq<Write> := [];
    var i := 0;
    while i < |rows|
      invariant 0 <= i <= |rows|
      invariant writes == Writes(rows[..i], statsMap)
      invariant needsReapply <==> AnyDisabled(writes)
    {
      writes, needsReapply := ChargeNext(rows, i, statsMap, writes, needsReapply);
      i := i + 1;
    }
    assert rows[..i] == rows;
    return Round(true, writes, needsReapply);
  }
}
