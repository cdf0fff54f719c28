/** The parser of Prometheus exposition text (internal/collector/gpu/parser.go) and
    its round trip with the standard printer of that format. */
module Exposition {
  import opened Prelude
  import opened Text
  import opened LabelSchema

  datatype Sample = Sample(name: string, labels: DcgmLabels, value: real)

  /** What one metric line says, with its labels as written. */
  datatype Reading = Reading(name: string, labels: seq<Label>, value: real)

  function SampleOf(r: Reading): Sample {
    Sample(r.name, Normalise(r.labels), r.value)
  }

  function Sampled(r: Option<Reading>): Option<Sample> {
    match r case Some(reading) => Some(SampleOf(reading)) case None => None
  }

  function SamplesOf(readings: seq<Reading>): seq<Sample> {
    if readings == [] then []
    else SamplesOf(readings[..|readings| - 1]) + [SampleOf(readings[|readings| - 1])]
  }

  /** One sample per reading, with its name, its value and the record of its labels. */
  lemma {:induction false} SamplesByReading(readings: seq<Reading>)
    ensures |SamplesOf(readings)| == |readings|
    ensures forall i :: 0 <= i < |readings| ==>
              var s := SamplesOf(readings)[i];
              && s.name == readings[i].name && s.value == readings[i].value
              && s.labels == Normalise(readings[i].labels)
  {
    if readings != [] {
      SamplesByReading(readings[..|readings| - 1]);
    }
  }

  /** strconv.ParseFloat on a value token; it is a parameter of the whole parser. */
  type FloatParser = string -> Option<real>

  lemma SamplesStep(readings: seq<Reading>, r: Reading)
    ensures SamplesOf(readings + [r]) == SamplesOf(readings) + [SampleOf(r)]
  {
    assert (readings + [r])[..|readings|] == readings;
  }

  function Unescape(c: char): string {
    if c == '"' then ['"']
    else if c == '\\' then ['\\']
    else if c == 'n' then ['\n']
    else ['\\', c]
  }

  /** Reads a label value after its opening quote: the decoded value, and the text after
      the closing quote (nothing if the quote is never closed). */
  function ReadValue(s: string): (r: (string, string))
    ensures |r.1| <= |s|
  {
    if s == "" then ("", "")
    else if s[0] == '\\' && |s| > 1 then
      var (v, rest) := ReadValue(s[2..]);
      (Unescape(s[1]) + v, rest)
    else if s[0] == '"' then ("", s[1..])
    else
      var (v, rest) := ReadValue(s[1..]);
      ([s[0]] + v, rest)
  }

  function SkipComma(s: string): (r: string)
    ensures |r| <= |s|
  {
    if s != "" && s[0] == ',' then s[1..] else s
  }

  /** The labels written between the braces, up to the first malformed one. */
  function ParsePairs(s: string): seq<Label>
    decreases |s|
  {
    var eq := IndexOf(s, '=');
    if eq < 0 then []
    else
      var t := s[eq + 1..];
      if t == "" || t[0] != '"' then []
      else
        var r := ReadValue(t[1..]);
        [Label(s[..eq], r.0)] + ParsePairs(SkipComma(r.1))
  }

  /** The inner loop of parseLabels: one value, up to its unescaped closing quote. */
  method ScanValue(s: string) returns (val: string, rest: string)
    ensures val == ReadValue(s).0 && rest == ReadValue(s).1
  {
    var i := 0;
    val := "";
    assert s[0..] == s;
    ghost var todo := ReadValue(s[0..]);
    assert "" + todo.0 == todo.0;
    while i < |s|
      invariant 0 <= i <= |s|
      invariant todo == ReadValue(s[i..])
      invariant ReadValue(s) == (val + todo.0, todo.1)
    {
      if s[i] == '\\' && i + 1 < |s| {
        ReadEscaped(s, i);
        ghost var after := ReadValue(s[i + 2..]);
        Assoc(val, Unescape(s[i + 1]), after.0);
        todo := after;
        val := val + Unescape(s[i + 1]);
        i := i + 2;
        continue;
      }
      if s[i] == '"' {
        break;
      }
      ReadPlain(s, i);
      ghost var after := ReadValue(s[i + 1..]);
      Assoc(val, [s[i]], after.0);
      todo := after;
      val := val + [s[i]];
      i := i + 1;
    }
    ReadEnd(s, i);
    assert val + todo.0 == val;
    rest := if i < |s| then s[i + 1..] else "";
  }

  lemma ReadEscaped(s: string, i: nat)
    requires i + 1 < |s| && s[i] == '\\'
    ensures ReadValue(s[i..]) ==
            (Unescape(s[i + 1]) + ReadValue(s[i + 2..]).0, ReadValue(s[i + 2..]).1)
  {
    assert s[i..][2..] == s[i + 2..];
  }

  lemma ReadPlain(s: string, i: nat)
    requires i < |s| && s[i] != '"' && (s[i] == '\\' ==> i + 1 == |s|)
    ensures ReadValue(s[i..]) == ([s[i]] + ReadValue(s[i + 1..]).0, ReadValue(s[i + 1..]).1)
  {
    assert s[i..][1..] == s[i + 1..];
  }

  lemma ReadEnd(s: string, i: nat)
    requires i <= |s| && (i < |s| ==> s[i] == '"')
    ensures ReadValue(s[i..]) == ("", if i < |s| then s[i + 1..] else "")
  {
    if i < |s| {
      assert s[i..][1..] == s[i + 1..];
    }
  }

  lemma PairsNext(s: string, eq: nat, value: string, rest: string)
    requires eq == IndexOf(s, '=') && eq + 1 < |s| && s[eq + 1] == '"'
    requires (value, rest) == ReadValue(s[eq + 1..][1..])
    ensures ParsePairs(s) == [Label(s[..eq], value)] + ParsePairs(SkipComma(rest))
  {
  }

  /** The start of parseLabels' loop body: the next label, if one is well-formed. */
  method ScanPair(s: string) returns (x: Option<Label>, rest: string)
    ensures x.None? ==> ParsePairs(s) == []
    ensures x.Some? ==> |rest| < |s| && ParsePairs(s) == [x.value] + ParsePairs(rest)
  {
    var eq := IndexOf(s, '=');
    if eq < 0 {
      return None, s;
    }
    var key, t := s[..eq], s[eq + 1..];
    if |t| == 0 || t[0] != '"' {
      return None, s;
    }
    var val, after := ScanValue(t[1..]);
    PairsNext(s, eq, val, after);
    return Some(Label(key, val)), SkipComma(after);
  }

  /** parser.go, parseLabels: the loop over labels, assigning each as it is read. */
  method ParseLabels(text: string) returns (l: DcgmLabels)
    ensures l == Normalise(ParsePairs(text))
  {
    var s := text;
    l := NO_LABELS;
    ghost var seen, todo := [], ParsePairs(text);
    ghost var all := todo;
    while |s| > 0
      invariant todo == ParsePairs(s)
      invariant all == seen + todo
      invariant l == Normalise(seen)
      decreases |s|
    {
      var x, rest := ScanPair(s);
      if x.None? {
        break;
      }
      s := rest;
      l := Assign(l, KindOf(x.value.key), x.value.value);
      NormaliseStep(seen, x.value);
      Assoc(seen, [x.value], ParsePairs(s));
      seen, todo := seen + [x.value], ParsePairs(s);
    }
    assert todo == [] && seen + [] == seen;
  }

  /** What a trimmed line says: `name{labels} value`, or `name value` without labels. */
  function ReadLine(line: string, parseFloat: FloatParser): Option<Reading> {
    ReadBetween(line, IndexOf(line, '{'), LastIndexOf(line, '}'), parseFloat)
  }

  function ReadBetween(line: string, open: int, close: int, parseFloat: FloatParser): Option<Reading>
    requires open < |line| && close < |line|
  {
    if open < 0 then ReadBare(line, parseFloat)
    else if close <= open then None
    else ReadBlock(line[..open], line[open + 1..close], line[close + 1..], parseFloat)
  }

  function ReadBare(line: string, parseFloat: FloatParser): Option<Reading> {
    var parts := Fields(line);
    if |parts| < 2 then None else Read(parts[0], [], parseFloat(parts[1]))
  }

  function ReadBlock(name: string, text: string, tail: string, parseFloat: FloatParser): Option<Reading> {
    var parts := Fields(TrimSpace(tail));
    if |parts| == 0 then None else Read(name, ParsePairs(text), parseFloat(parts[0]))
  }

  /** A line says nothing if its value does not parse. */
  function Read(name: string, labels: seq<Label>, value: Option<real>): Option<Reading> {
    match value
    case None => None
    case Some(v) => Some(Reading(name, labels, v))
  }

  lemma ReadLineAt(s: string, open: int, close: int, parseFloat: FloatParser)
    requires IndexOf(s, '{') == open && LastIndexOf(s, '}') == close
    ensures ReadLine(s, parseFloat) == ReadBetween(s, open, close, parseFloat)
  {
  }

  /** parser.go, parseSampleLine. */
  method ParseSampleLine(line: string, parseFloat: FloatParser) returns (r: Option<Sample>)
    ensures r == Sampled(ReadLine(line, parseFloat))
  {
    var open, close := IndexOf(line, '{'), LastIndexOf(line, '}');
    ReadLineAt(line, open, close, parseFloat);
    r := ParseBetween(line, open, close, parseFloat);
  }

  method ParseBetween(line: string, open: int, close: int, parseFloat: FloatParser) returns (r: Option<Sample>)
    requires open < |line| && close < |line|
    ensures r == Sampled(ReadBetween(line, open, close, parseFloat))
  {
    if open < 0 {
      r := ParseBare(line, parseFloat);
      return;
    }
    if close <= open {
      return None;
    }
    r := ParseBlock(line[..open], line[open + 1..close], line[close + 1..], parseFloat);
  }

  /** The part of parseSampleLine for a line without labels. */
  method ParseBare(line: string, parseFloat: FloatParser) returns (r: Option<Sample>)
    ensures r == Sampled(ReadBare(line, parseFloat))
  {
    var parts := Fields(line);
    if |parts| < 2 {
      return None;
    }
    var v := parseFloat(parts[1]);
    return if v.None? then None else Some(Sample(parts[0], NO_LABELS, v.value));
  }

  /** The part of parseSampleLine for a line with a label block. */
  method ParseBlock(name: string, text: string, tail: string, parseFloat: FloatParser) returns (r: Option<Sample>)
    ensures r == Sampled(ReadBlock(name, text, tail, parseFloat))
  {
    var labels := ParseLabels(text);
    var parts := Fields(TrimSpace(tail));
    if |parts| == 0 {
      return None;
    }
    var v := parseFloat(parts[0]);
    return if v.None? then None else Some(Sample(name, labels, v.value));
  }

  /** The sample of one scanned line: blank lines and comments have none. */
  function ReadingOfLine(raw: string, parseFloat: FloatParser): Option<Reading> {
    var line := TrimSpace(raw);
    if line == "" || line[0] == '#' then None else ReadLine(line, parseFloat)
  }

  function Readings(lines: seq<string>, parseFloat: FloatParser): seq<Reading> {
    if lines == [] then []
    else
      AsSeq(ReadingOfLine(lines[0], parseFloat)) + Readings(lines[1..], parseFloat)
  }

  function AsSeq(x: Option<Reading>): seq<Reading> {
    match x case Some(v) => [v] case None => []
  }

  function ParseText(data: string, parseFloat: FloatParser): seq<Reading> {
    Readings(ScanLines(data), parseFloat)
  }

  /** The loop body: skip blank lines and comments, then parse. */
  method ParseLine(raw: string, parseFloat: FloatParser) returns (x: Option<Sample>)
    ensures x == Sampled(ReadingOfLine(raw, parseFloat))
  {
    var line := TrimSpace(raw);
    if line == "" || line[0] == '#' {
      return None;
    }
    x := ParseSampleLine(line, parseFloat);
  }

  lemma {:induction false} ReadingsConcat(a: seq<string>, b: seq<string>, parseFloat: FloatParser)
    ensures Readings(a + b, parseFloat) == Readings(a, parseFloat) + Readings(b, parseFloat)
  {
    if a == [] {
      assert a + b == b;
    } else {
      assert (a + b)[1..] == a[1..] + b;
      ReadingsConcat(a[1..], b, parseFloat);
    }
  }

  lemma ReadingsSnoc(a: seq<string>, line: string, parseFloat: FloatParser)
    ensures Readings(a + [line], parseFloat)
         == Readings(a, parseFloat) + AsSeq(ReadingOfLine(line, parseFloat))
  {
    ReadingsConcat(a, [line], parseFloat);
    assert [line][1..] == [];
    assert Readings([], parseFloat) == [];
  }

  lemma SamplesOfSnoc(readings: seq<Reading>, r: Option<Reading>, x: Option<Sample>)
    requires x == Sampled(r)
    ensures SamplesOf(readings + AsSeq(r))
         == if x.Some? then SamplesOf(readings) + [x.value] else SamplesOf(readings)
  {
    if r.Some? {
      SamplesStep(readings, r.value);
    } else {
      assert readings + [] == readings;
    }
  }

  lemma SamplesAfter(front: seq<string>, line: string, parseFloat: FloatParser, x: Option<Sample>)
    requires x == Sampled(ReadingOfLine(line, parseFloat))
    ensures var before := SamplesOf(Readings(front, parseFloat));
            SamplesOf(Readings(front + [line], parseFloat)) == if x.Some? then before + [x.value] else before
  {
    ReadingsSnoc(front, line, parseFloat);
    SamplesOfSnoc(Readings(front, parseFloat), ReadingOfLine(line, parseFloat), x);
  }

  /** What one more line adds to the samples. */
  lemma SamplesGrow(lines: seq<string>, n: nat, parseFloat: FloatParser, x: Option<Sample>)
    requires n < |lines| && x == Sampled(ReadingOfLine(lines[n], parseFloat))
    ensures var before := SamplesOf(Readings(lines[..n], parseFloat));
            SamplesOf(Readings(lines[..n + 1], parseFloat)) == if x.Some? then before + [x.value] else before
  {
    PrefixSnoc(lines, n);
    SamplesAfter(lines[..n], lines[n], parseFloat, x);
  }

  /** parser.go, parsePrometheusText: one pass over the scanned lines, appending what parses. */
  method ParsePrometheusText(data: string, parseFloat: FloatParser) returns (samples: seq<Sample>)
    ensures samples == SamplesOf(ParseText(data, parseFloat))
  {
    samples := [];
    var lines := ScanLines(data);
    for n := 0 to |lines|
      invariant samples == SamplesOf(Readings(lines[..n], parseFloat))
    {
      var x := ParseLine(lines[n], parseFloat);
      SamplesGrow(lines, n, parseFloat, x);
      if x.Some? {
        samples := samples + [x.value];
      }
    }
    assert lines[..|lines|] == lines;
  }

  // ---- The standard printer ----

  /** A metric line: no label block and an empty one are different texts. */
  datatype Item = Item(name: string, labels: Option<seq<Label>>, value: string, timestamp: Option<string>)

  function EscapeChar(c: char): string {
    if c == '\\' then ['\\', '\\']
    else if c == '"' then ['\\', '"']
    else if c == '\n' then ['\\', 'n']
    else [c]
  }

  function Escape(v: string): string {
    if v == "" then "" else EscapeChar(v[0]) + Escape(v[1..])
  }

  function PrintLabel(x: Label): string {
    x.key + (['=', '"'] + (Escape(x.value) + ['"']))
  }

  function PrintLabels(labels: seq<Label>): string
    decreases |labels|, 0
  {
    if labels == [] then "" else PrintLabel(labels[0]) + PrintMore(labels[1..])
  }

  function PrintMore(labels: seq<Label>): string
    decreases |labels|, 1
  {
    if labels == [] then "" else [','] + PrintLabels(labels)
  }

  function PrintTimestamp(item: Item): string {
    match item.timestamp case None => "" case Some(t) => [' '] + t
  }

  function PrintTail(item: Item): string {
    [' '] + (item.value + PrintTimestamp(item))
  }

  function PrintItem(item: Item): string {
    match item.labels
    case None => item.name + PrintTail(item)
    case Some(labels) => item.name + PrintBlock(labels, PrintTail(item))
  }

  function PrintBlock(labels: seq<Label>, tail: string): string {
    ['{'] + PrintLabels(labels) + (['}'] + tail)
  }

  predicate ValidToken(t: string, labelled: bool) {
    t != "" && NoSpace(t) && '}' !in t && (!labelled ==> '{' !in t)
  }

  /** The text of the item follows the format. */
  predicate ShapedItem(item: Item, parseFloat: FloatParser) {
    && NoSpace(item.name) && '{' !in item.name
    && (item.name != "" ==> item.name[0] != '#')
    && (item.labels.None? ==> item.name != "")
    && (item.labels.Some? ==>
          forall i :: 0 <= i < |item.labels.value| ==>
            '=' !in item.labels.value[i].key && '\n' !in item.labels.value[i].key)
    && ValidToken(item.value, item.labels.Some?)
    && (item.timestamp.Some? ==> ValidToken(item.timestamp.value, item.labels.Some?))
    && parseFloat(item.value).Some?
  }

  predicate ValidItem(item: Item, parseFloat: FloatParser) {
    ShapedItem(item, parseFloat) && ByteLen(PrintItem(item)) < MAX_SCAN_TOKEN
  }

  /** The reading an item stands for. */
  function Meaning(item: Item, parseFloat: FloatParser): Reading
    requires parseFloat(item.value).Some?
  {
    Reading(item.name, item.labels.Or([]), parseFloat(item.value).value)
  }

  /** A line of a document: a metric, or a blank or comment line. */
  datatype Line = Metric(item: Item) | Noise(text: string)

  predicate ShapedNoise(text: string) {
    '\n' !in text && (var t := TrimLeft(text); t == "" || t[0] == '#')
  }

  predicate IsNoise(text: string) {
    ShapedNoise(text) && ByteLen(text) < MAX_SCAN_TOKEN
  }

  function PrintLine(line: Line): string {
    match line
    case Metric(item) => PrintItem(item)
    case Noise(text) => text
  }

  predicate ShapedLine(line: Line, parseFloat: FloatParser) {
    match line
    case Metric(item) => ShapedItem(item, parseFloat)
    case Noise(text) => ShapedNoise(text)
  }

  predicate ShapedDocument(doc: seq<Line>, parseFloat: FloatParser) {
    forall i :: 0 <= i < |doc| ==> ShapedLine(doc[i], parseFloat)
  }

  predicate ValidLine(line: Line, parseFloat: FloatParser) {
    match line
    case Metric(item) => ValidItem(item, parseFloat)
    case Noise(text) => IsNoise(text)
  }

  predicate ValidDocument(doc: seq<Line>, parseFloat: FloatParser) {
    forall i :: 0 <= i < |doc| ==> ValidLine(doc[i], parseFloat)
  }

  function PrintDocument(doc: seq<Line>): string {
    if doc == [] then "" else PrintLine(doc[0]) + ['\n'] + PrintDocument(doc[1..])
  }

  function LineMeaning(line: Line, parseFloat: FloatParser): seq<Reading>
    requires ShapedLine(line, parseFloat)
  {
    match line case Metric(item) => [Meaning(item, parseFloat)] case Noise(_) => []
  }

  function Meanings(doc: seq<Line>, parseFloat: FloatParser): seq<Reading>
    requires ShapedDocument(doc, parseFloat)
  {
    if doc == [] then [] else LineMeaning(doc[0], parseFloat) + Meanings(doc[1..], parseFloat)
  }

  // ---- Round trip ----

  /** An escaped character is read back as itself. */
  lemma CharRoundTrip(c: char, tail: string)
    ensures ReadValue(EscapeChar(c) + tail) == ([c] + ReadValue(tail).0, ReadValue(tail).1)
  {
    var e := EscapeChar(c);
    var s := e + tail;
    assert s[0..] == s && s[|e|..] == tail && s[0] == e[0];
    if |e| == 2 {
      assert s[1] == e[1] && Unescape(e[1]) == [c];
      ReadEscaped(s, 0);
    } else {
      assert e == [c];
      ReadPlain(s, 0);
    }
  }

  /** Any value survives escaping and reading, whatever follows its closing quote. */
  lemma {:induction false} ValueRoundTrip(v: string, rest: string)
    ensures ReadValue(Escape(v) + (['"'] + rest)) == (v, rest)
  {
    var end := ['"'] + rest;
    if v == "" {
      assert Escape(v) + end == end;
      assert end[0..] == end && end[1..] == rest;
      ReadEnd(end, 0);
    } else {
      var e, more := EscapeChar(v[0]), Escape(v[1..]);
      assert Escape(v) + end == e + (more + end);
      ValueRoundTrip(v[1..], rest);
      CharRoundTrip(v[0], more + end);
      assert v == [v[0]] + v[1..];
    }
  }

  /** A backslash before any other character is kept, together with that character. */
  lemma UnknownEscapeKept(c: char, v: string, rest: string)
    requires c != '"' && c != '\\' && c != 'n'
    ensures ReadValue(['\\', c] + (Escape(v) + (['"'] + rest))) == (['\\', c] + v, rest)
  {
    var tail := Escape(v) + (['"'] + rest);
    var s := ['\\', c] + tail;
    assert s[0..] == s && s[2..] == tail;
    ReadEscaped(s, 0);
    ValueRoundTrip(v, rest);
  }

  /** Without its closing quote a value takes the rest of the text, and parsing ends there. */
  lemma {:induction false} UnclosedValue(v: string)
    ensures ReadValue(Escape(v)) == (v, "")
  {
    if v != "" {
      UnclosedValue(v[1..]);
      CharRoundTrip(v[0], Escape(v[1..]));
      assert v == [v[0]] + v[1..];
    }
  }

  lemma {:induction false} PairStep(x: Label, tail: string)
    requires '=' !in x.key
    ensures ParsePairs(PrintLabel(x) + tail) == [x] + ParsePairs(SkipComma(tail))
  {
    var s, escaped := PrintLabel(x) + tail, Escape(x.value);
    var quoted := escaped + (['"'] + tail);
    Assoc(escaped, ['"'], tail);
    Assoc(['=', '"'], escaped + ['"'], tail);
    Assoc(x.key, ['=', '"'] + (escaped + ['"']), tail);
    var n := |x.key|;
    assert s == x.key + (['=', '"'] + quoted);
    assert s[..n] == x.key && s[n] == '=' && s[n + 1] == '"';
    IndexOfAt(s, '=', n);
    assert s[n + 1..][1..] == quoted;
    ValueRoundTrip(x.value, tail);
    PairsNext(s, n, x.value, tail);
  }

  lemma {:induction false} PairsRoundTrip(labels: seq<Label>)
    requires forall i :: 0 <= i < |labels| ==> '=' !in labels[i].key
    ensures ParsePairs(PrintLabels(labels)) == labels
  {
    if labels != [] {
      var more := PrintMore(labels[1..]);
      PairStep(labels[0], more);
      SkipMore(labels[1..]);
      PairsRoundTrip(labels[1..]);
      assert labels == [labels[0]] + labels[1..];
    }
  }

  lemma SkipMore(labels: seq<Label>)
    ensures SkipComma(PrintMore(labels)) == PrintLabels(labels)
  {
  }

  lemma {:induction false} EscapeOneLine(v: string)
    ensures '\n' !in Escape(v)
  {
    if v != "" {
      EscapeOneLine(v[1..]);
    }
  }

  lemma {:induction false} LabelsOneLine(labels: seq<Label>)
    requires forall i :: 0 <= i < |labels| ==> '\n' !in labels[i].key
    ensures '\n' !in PrintLabels(labels)
  {
    if labels != [] {
      EscapeOneLine(labels[0].value);
      LabelsOneLine(labels[1..]);
    }
  }

  lemma {:induction false} ItemOneLine(item: Item, parseFloat: FloatParser)
    requires ShapedItem(item, parseFloat)
    ensures '\n' !in PrintItem(item)
  {
    NoSpaceOneLine(item.name);
    NoSpaceOneLine(item.value);
    if item.timestamp.Some? {
      NoSpaceOneLine(item.timestamp.value);
    }
    assert '\n' !in PrintTail(item);
    if item.labels.Some? {
      LabelsOneLine(item.labels.value);
      assert '\n' !in PrintBlock(item.labels.value, PrintTail(item));
    }
  }

  lemma NoSpaceOneLine(s: string)
    requires NoSpace(s)
    ensures '\n' !in s
  {
  }

  /** A printed item starts and ends with characters that trimming keeps. */
  lemma {:induction false} ItemTrimmed(item: Item, parseFloat: FloatParser)
    requires ShapedItem(item, parseFloat)
    ensures TrimSpace(PrintItem(item)) == PrintItem(item)
    ensures PrintItem(item) != "" && PrintItem(item)[0] != '#'
    ensures DropCR(PrintItem(item)) == PrintItem(item)
  {
    var s := PrintItem(item);
    var last := if item.timestamp.Some? then item.timestamp.value else item.value;
    assert s[|s| - 1] == last[|last| - 1] && !IsSpace(s[|s| - 1]);
    assert s[0] == if item.name != "" then item.name[0] else '{';
    TrimSpaceKeeps(s);
  }

  lemma {:induction false} TailFields(value: string, rest: string)
    requires value != "" && NoSpace(value)
    requires rest == "" || (IsSpace(rest[0]) && !IsSpace(rest[|rest| - 1]))
    ensures Fields([' '] + (value + rest)) == [value] + Fields(rest)
    ensures TrimSpace([' '] + (value + rest)) == value + rest
    ensures Fields(value + rest) == [value] + Fields(rest)
  {
    var body := value + rest;
    var tail := [' '] + body;
    assert tail[1..] == body;
    FieldsHead(value, rest);
    assert body[0] == value[0];
    assert body[|body| - 1] == if rest == "" then value[|value| - 1] else rest[|rest| - 1];
    TrimSpaceKeeps(body);
    assert TrimLeft(tail) == TrimLeft(body);
  }

  lemma {:induction false} BareRoundTrip(name: string, value: string, rest: string, parseFloat: FloatParser)
    requires name != "" && NoSpace(name) && '{' !in name + ([' '] + (value + rest))
    requires value != "" && NoSpace(value)
    requires rest == "" || (IsSpace(rest[0]) && !IsSpace(rest[|rest| - 1]))
    requires parseFloat(value).Some?
    ensures ReadLine(name + ([' '] + (value + rest)), parseFloat)
         == Some(Reading(name, [], parseFloat(value).value))
  {
    TailFields(value, rest);
    FieldsHead(name, [' '] + (value + rest));
    IndexOfNone(name + ([' '] + (value + rest)), '{');
  }

  lemma BlockSlices(name: string, text: string, tail: string)
    ensures var s := name + (['{'] + text + (['}'] + tail));
            var open, close := |name|, |name| + 1 + |text|;
            && s[..open] == name && s[open] == '{' && s[open + 1..close] == text
            && s[close] == '}' && s[close + 1..] == tail
  {
    var block := ['{'] + text + (['}'] + tail);
    var s := name + block;
    assert block[0] == '{' && block[1..1 + |text|] == text;
    assert block[1 + |text|] == '}' && block[2 + |text|..] == tail;
    assert s[|name| + 1..|name| + 1 + |text|] == block[1..1 + |text|];
    assert s[|name| + 2 + |text|..] == block[2 + |text|..];
  }

  /** The braces are found where they stand, if there is none before the first or after the last. */
  lemma BracesAt(s: string, open: nat, close: nat, parseFloat: FloatParser)
    requires open < close < |s| && s[open] == '{' && s[close] == '}'
    requires '{' !in s[..open] && '}' !in s[close + 1..]
    ensures ReadLine(s, parseFloat) == ReadBetween(s, open, close, parseFloat)
  {
    IndexOfAt(s, '{', open);
    LastIndexOfAt(s, '}', close);
    ReadLineAt(s, open, close, parseFloat);
  }

  lemma ReadBetweenBraces(
    s: string, open: nat, close: nat, name: string, text: string, tail: string, parseFloat: FloatParser)
    requires open < close < |s|
    requires s[..open] == name && s[open + 1..close] == text && s[close + 1..] == tail
    ensures ReadBetween(s, open, close, parseFloat) == ReadBlock(name, text, tail, parseFloat)
  {
  }

  /** A line with its block in place is read as the block says. */
  lemma BlockRead(
    s: string, open: nat, close: nat, name: string, text: string, tail: string, parseFloat: FloatParser)
    requires open < close < |s| && s[open] == '{' && s[close] == '}'
    requires s[..open] == name && s[open + 1..close] == text && s[close + 1..] == tail
    requires '{' !in name && '}' !in tail
    ensures ReadLine(s, parseFloat) == ReadBlock(name, text, tail, parseFloat)
  {
    BracesAt(s, open, close, parseFloat);
    ReadBetweenBraces(s, open, close, name, text, tail, parseFloat);
  }

  lemma BlockValue(name: string, text: string, value: string, rest: string, parseFloat: FloatParser)
    requires value != "" && NoSpace(value)
    requires rest == "" || (IsSpace(rest[0]) && !IsSpace(rest[|rest| - 1]))
    ensures ReadBlock(name, text, [' '] + (value + rest), parseFloat)
         == Read(name, ParsePairs(text), parseFloat(value))
  {
    TailFields(value, rest);
  }

  lemma {:induction false} LabelledRoundTrip(
    name: string, text: string, value: string, rest: string, parseFloat: FloatParser)
    requires '{' !in name && '}' !in value + rest
    requires value != "" && NoSpace(value)
    requires rest == "" || (IsSpace(rest[0]) && !IsSpace(rest[|rest| - 1]))
    ensures ReadLine(name + (['{'] + text + (['}'] + ([' '] + (value + rest)))), parseFloat)
         == Read(name, ParsePairs(text), parseFloat(value))
  {
    var tail := [' '] + (value + rest);
    assert '}' !in tail;
    BlockSlices(name, text, tail);
    BlockRead(name + (['{'] + text + (['}'] + tail)), |name|, |name| + 1 + |text|, name, text, tail, parseFloat);
    BlockValue(name, text, value, rest, parseFloat);
  }

  lemma TimestampTail(item: Item, parseFloat: FloatParser)
    requires ShapedItem(item, parseFloat)
    ensures var rest := PrintTimestamp(item);
            && (rest == "" || (IsSpace(rest[0]) && !IsSpace(rest[|rest| - 1])))
            && '}' !in item.value + rest
            && (item.labels.None? ==> '{' !in item.name + ([' '] + (item.value + rest)))
  {
  }

  lemma {:induction false} ItemRoundTrip(item: Item, parseFloat: FloatParser)
    requires ShapedItem(item, parseFloat)
    ensures ReadLine(PrintItem(item), parseFloat) == Some(Meaning(item, parseFloat))
  {
    var rest := PrintTimestamp(item);
    TimestampTail(item, parseFloat);
    match item.labels {
      case None => BareRoundTrip(item.name, item.value, rest, parseFloat);
      case Some(labels) =>
        LabelledRoundTrip(item.name, PrintLabels(labels), item.value, rest, parseFloat);
        PairsRoundTrip(labels);
    }
  }

  lemma {:induction false} NoiseSilent(text: string, parseFloat: FloatParser)
    requires IsNoise(text)
    ensures ReadingOfLine(DropCR(text), parseFloat) == None
  {
    var d := DropCR(text);
    TrimLeftOfPrefix(text, d);
    TrimRightHead(TrimLeft(d));
  }

  lemma {:induction false} TrimLeftOfPrefix(s: string, p: string)
    requires |p| <= |s| && s[..|p|] == p
    requires TrimLeft(s) == "" || TrimLeft(s)[0] == '#'
    ensures TrimLeft(p) == "" || TrimLeft(p)[0] == '#'
  {
    if p != "" && IsSpace(p[0]) {
      assert s[1..][..|p[1..]|] == p[1..];
      TrimLeftOfPrefix(s[1..], p[1..]);
    }
  }

  lemma {:induction false} TrimRightHead(s: string)
    ensures TrimRight(s) == "" || (s != "" && TrimRight(s)[0] == s[0])
  {
    if s != "" && IsSpace(s[|s| - 1]) {
      TrimRightHead(s[..|s| - 1]);
    }
  }

  lemma {:induction false} ScanStep(line: string, rest: string)
    requires '\n' !in line && ByteLen(line) < MAX_SCAN_TOKEN
    ensures ScanLines(line + ['\n'] + rest) == [DropCR(line)] + ScanLines(rest)
  {
    var data := line + ['\n'] + rest;
    assert data[..|line|] == line && data[|line|] == '\n';
    IndexOfAt(data, '\n', |line|);
    assert data[|line| + 1..] == rest;
  }

  lemma {:induction false} LineReads(line: Line, parseFloat: FloatParser)
    requires ValidLine(line, parseFloat)
    ensures '\n' !in PrintLine(line) && ByteLen(PrintLine(line)) < MAX_SCAN_TOKEN
    ensures AsSeq(ReadingOfLine(DropCR(PrintLine(line)), parseFloat)) == LineMeaning(line, parseFloat)
  {
    match line {
      case Metric(item) =>
        ItemOneLine(item, parseFloat);
        ItemTrimmed(item, parseFloat);
        ItemRoundTrip(item, parseFloat);
      case Noise(text) =>
        NoiseSilent(text, parseFloat);
    }
  }

  /** One printed line is read in front of any text. */
  lemma LineFirst(line: Line, rest: string, parseFloat: FloatParser)
    requires ValidLine(line, parseFloat)
    ensures ParseText(PrintLine(line) + ['\n'] + rest, parseFloat)
         == LineMeaning(line, parseFloat) + ParseText(rest, parseFloat)
  {
    LineReads(line, parseFloat);
    ParseStep(PrintLine(line), rest, parseFloat);
  }

  /** A printed document is read in full, whatever text follows it. */
  lemma {:induction false} DocumentPrefix(doc: seq<Line>, suffix: string, parseFloat: FloatParser)
    requires ValidDocument(doc, parseFloat)
    ensures ParseText(PrintDocument(doc) + suffix, parseFloat)
         == Meanings(doc, parseFloat) + ParseText(suffix, parseFloat)
  {
    if doc == [] {
      assert PrintDocument(doc) + suffix == suffix;
    } else {
      assert ValidLine(doc[0], parseFloat);
      DocumentPrefix(doc[1..], suffix, parseFloat);
      PrefixStep(doc[0], PrintDocument(doc[1..]), Meanings(doc[1..], parseFloat), suffix, parseFloat);
    }
  }

  lemma PrefixStep(line: Line, text: string, readings: seq<Reading>, suffix: string, parseFloat: FloatParser)
    requires ValidLine(line, parseFloat)
    requires ParseText(text + suffix, parseFloat) == readings + ParseText(suffix, parseFloat)
    ensures ParseText(PrintLine(line) + ['\n'] + text + suffix, parseFloat)
         == LineMeaning(line, parseFloat) + readings + ParseText(suffix, parseFloat)
  {
    var head, first, after := PrintLine(line) + ['\n'], LineMeaning(line, parseFloat), ParseText(suffix, parseFloat);
    LineFirst(line, text + suffix, parseFloat);
    Assoc(head, text, suffix);
    Assoc(first, readings, after);
  }

  lemma {:induction false} ParseStep(line: string, rest: string, parseFloat: FloatParser)
    requires '\n' !in line && ByteLen(line) < MAX_SCAN_TOKEN
    ensures ParseText(line + ['\n'] + rest, parseFloat)
         == AsSeq(ReadingOfLine(DropCR(line), parseFloat)) + ParseText(rest, parseFloat)
  {
    ScanStep(line, rest);
    ReadingsConcat([DropCR(line)], ScanLines(rest), parseFloat);
    ReadingsSnoc([], DropCR(line), parseFloat);
    assert [] + [DropCR(line)] == [DropCR(line)];
  }

  /** Printing a document with the standard escapes and parsing it back gives exactly the
      readings of its metric lines, in order; comment and blank lines change nothing. */
  lemma {:induction false} DocumentRoundTrip(doc: seq<Line>, parseFloat: FloatParser)
    requires ValidDocument(doc, parseFloat)
    ensures ParseText(PrintDocument(doc), parseFloat) == Meanings(doc, parseFloat)
  {
    DocumentPrefix(doc, "", parseFloat);
    assert PrintDocument(doc) + "" == PrintDocument(doc);
  }

  /** A line of 64 KiB or more ends the scan: it and all the text after it are lost. */
  lemma {:induction false} OverlongLineEndsScan(
    doc: seq<Line>, long: string, rest: string, parseFloat: FloatParser)
    requires ValidDocument(doc, parseFloat)
    requires '\n' !in long && ByteLen(long) >= 65536
    ensures ParseText(PrintDocument(doc) + (long + ['\n'] + rest), parseFloat) == Meanings(doc, parseFloat)
  {
    var tail := long + ['\n'] + rest;
    DocumentPrefix(doc, tail, parseFloat);
    assert tail[..|long|] == long && tail[|long|] == '\n';
    IndexOfAt(tail, '\n', |long|);
    assert ScanLines(tail) == [];
  }
}
