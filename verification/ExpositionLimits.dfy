/** Where the exposition parser stops reading what the format allows: after an overlong line,
    and around blanks between tokens (internal/collector/gpu/parser.go). */
module ExpositionLimits {
  import opened Prelude
  import opened Text
  import opened LabelSchema
  import opened Exposition

  // ---- Overlong lines ----

  predicate IsLong(line: Line) {
    ByteLen(PrintLine(line)) >= 65536
  }

  /** The position of the first line of 64 KiB or more, or the number of lines. */
  function FirstLong(doc: seq<Line>): (n: nat)
    ensures n <= |doc|
    ensures forall i :: 0 <= i < n ==> !IsLong(doc[i])
    ensures n < |doc| ==> IsLong(doc[n])
  {
    if doc == [] || IsLong(doc[0]) then 0 else 1 + FirstLong(doc[1..])
  }

  lemma {:induction false} PrintConcat(a: seq<Line>, b: seq<Line>)
    ensures PrintDocument(a + b) == PrintDocument(a) + PrintDocument(b)
  {
    if a == [] {
      assert a + b == b;
    } else {
      assert (a + b)[1..] == a[1..] + b;
      PrintConcat(a[1..], b);
      Assoc(PrintLine(a[0]) + ['\n'], PrintDocument(a[1..]), PrintDocument(b));
    }
  }

  lemma {:induction false} MeaningsConcat(a: seq<Line>, b: seq<Line>, parseFloat: FloatParser)
    requires ShapedDocument(a, parseFloat) && ShapedDocument(b, parseFloat)
    ensures ShapedDocument(a + b, parseFloat)
    ensures Meanings(a + b, parseFloat) == Meanings(a, parseFloat) + Meanings(b, parseFloat)
  {
    if a == [] {
      assert a + b == b;
    } else {
      assert (a + b)[1..] == a[1..] + b;
      MeaningsConcat(a[1..], b, parseFloat);
      Assoc(LineMeaning(a[0], parseFloat), Meanings(a[1..], parseFloat), Meanings(b, parseFloat));
    }
  }

  lemma {:induction false} NoMetricNoMeaning(doc: seq<Line>, parseFloat: FloatParser)
    requires ShapedDocument(doc, parseFloat)
    ensures Meanings(doc, parseFloat) == [] <==> forall i :: 0 <= i < |doc| ==> !doc[i].Metric?
  {
    if doc != [] {
      NoMetricNoMeaning(doc[1..], parseFloat);
      assert forall i :: 0 < i < |doc| ==> doc[i] == doc[1..][i - 1];
      if doc[0].Noise? {
        assert [] + Meanings(doc[1..], parseFloat) == Meanings(doc[1..], parseFloat);
      }
    }
  }

  lemma ShapedOneLine(line: Line, parseFloat: FloatParser)
    requires ShapedLine(line, parseFloat)
    ensures '\n' !in PrintLine(line)
  {
    if line.Metric? {
      ItemOneLine(line.item, parseFloat);
    }
  }

  /** An overlong line hides itself and what follows it. */
  lemma LongLineStops(front: seq<Line>, line: Line, after: seq<Line>, parseFloat: FloatParser)
    requires ValidDocument(front, parseFloat) && ShapedLine(line, parseFloat) && IsLong(line)
    ensures ParseText(PrintDocument(front + ([line] + after)), parseFloat) == Meanings(front, parseFloat)
  {
    PrintConcat(front, [line] + after);
    assert ([line] + after)[1..] == after;
    ShapedOneLine(line, parseFloat);
    OverlongLineEndsScan(front, PrintLine(line), PrintDocument(after), parseFloat);
  }

  lemma PartsAt(doc: seq<Line>, n: nat)
    requires n < |doc|
    ensures doc == doc[..n] + ([doc[n]] + doc[n + 1..])
  {
  }

  /** Whatever its lines' lengths, a document is read up to its first overlong line. */
  lemma {:induction false} ReadUpToFirstLong(doc: seq<Line>, parseFloat: FloatParser)
    requires ShapedDocument(doc, parseFloat)
    ensures ParseText(PrintDocument(doc), parseFloat) == Meanings(doc[..FirstLong(doc)], parseFloat)
  {
    var n := FirstLong(doc);
    assert ValidDocument(doc[..n], parseFloat);
    if n == |doc| {
      assert doc[..n] == doc;
      DocumentRoundTrip(doc, parseFloat);
    } else {
      PartsAt(doc, n);
      LongLineStops(doc[..n], doc[n], doc[n + 1..], parseFloat);
    }
  }

  lemma SplitAt(doc: seq<Line>, n: nat)
    requires n <= |doc|
    ensures doc == doc[..n] + doc[n..]
    ensures (forall i :: 0 <= i < |doc[n..]| ==> !doc[n..][i].Metric?) <==> forall i :: n <= i < |doc| ==> !doc[i].Metric?
  {
    assert forall i :: n <= i < |doc| ==> doc[i] == doc[n..][i - n];
  }

  /** Everything is read back if and only if no metric stands at or after the first line of
      64 KiB or more. */
  lemma {:induction false} ReadBackIff(doc: seq<Line>, parseFloat: FloatParser)
    requires ShapedDocument(doc, parseFloat)
    ensures ParseText(PrintDocument(doc), parseFloat) == Meanings(doc, parseFloat)
            <==> forall i :: FirstLong(doc) <= i < |doc| ==> !doc[i].Metric?
  {
    var n := FirstLong(doc);
    var front, back := doc[..n], doc[n..];
    ReadUpToFirstLong(doc, parseFloat);
    SplitAt(doc, n);
    MeaningsConcat(front, back, parseFloat);
    NoMetricNoMeaning(back, parseFloat);
    AppendIff(Meanings(front, parseFloat), Meanings(back, parseFloat));
  }

  // ---- Blanks between tokens ----

  /** A label as the format allows it, with blanks before the name, before and after the
      equals sign, and after the value. */
  datatype Padded = Padded(pair: Label, before: string, afterName: string, beforeValue: string, afterValue: string)

  predicate AllBlank(s: string) {
    forall i :: 0 <= i < |s| ==> s[i] == ' ' || s[i] == '\t'
  }

  predicate ShapedPadded(x: Padded) {
    && '=' !in x.pair.key
    && AllBlank(x.before) && AllBlank(x.afterName) && AllBlank(x.beforeValue) && AllBlank(x.afterValue)
  }

  predicate AllShaped(xs: seq<Padded>) {
    forall i :: 0 <= i < |xs| ==> ShapedPadded(xs[i])
  }

  /** The name as the parser takes it: everything up to the equals sign. */
  function NameText(x: Padded): string {
    x.before + (x.pair.key + x.afterName)
  }

  function PrintPadded(x: Padded): string {
    NameText(x) + (['='] + (x.beforeValue + (['"'] + (Escape(x.pair.value) + ['"']))))
  }

  function PrintAllPadded(xs: seq<Padded>): string {
    if xs == [] then ""
    else PrintPadded(xs[0]) + (xs[0].afterValue + (if |xs| == 1 then "" else [','] + PrintAllPadded(xs[1..])))
  }

  function LabelsOf(xs: seq<Padded>): seq<Label> {
    if xs == [] then [] else [xs[0].pair] + LabelsOf(xs[1..])
  }

  /** No blank but behind the last value. */
  predicate Tight(xs: seq<Padded>) {
    forall i :: 0 <= i < |xs| ==>
      && xs[i].before == "" && xs[i].afterName == "" && xs[i].beforeValue == ""
      && (i < |xs| - 1 ==> xs[i].afterValue == "")
  }

  /** What the parser makes of a padded label after some text without an equals sign. */
  lemma {:induction false} PaddedHead(u: string, x: Padded, tail: string)
    requires '=' !in u && ShapedPadded(x)
    ensures var r := ParsePairs(u + (PrintPadded(x) + tail));
            if x.beforeValue != "" then r == []
            else r == [Label(u + NameText(x), x.pair.value)] + ParsePairs(SkipComma(tail))
  {
    var name, escaped := u + NameText(x), Escape(x.pair.value);
    var rest := x.beforeValue + (['"'] + (escaped + (['"'] + tail)));
    var s := u + (PrintPadded(x) + tail);
    PaddedText(u, x, tail);
    var n := |name|;
    assert s == name + (['='] + rest);
    assert s[..n] == name && s[n] == '=' && s[n + 1..] == rest;
    assert '=' !in name;
    IndexOfAt(s, '=', n);
    if x.beforeValue != "" {
      assert s[n + 1] == x.beforeValue[0];
    } else {
      assert rest == ['"'] + (escaped + (['"'] + tail));
      assert s[n + 1..][1..] == escaped + (['"'] + tail);
      ValueRoundTrip(x.pair.value, tail);
      PairsNext(s, n, x.pair.value, tail);
    }
  }

  lemma PaddedText(u: string, x: Padded, tail: string)
    ensures u + (PrintPadded(x) + tail)
         == (u + NameText(x)) + (['='] + (x.beforeValue + (['"'] + (Escape(x.pair.value) + (['"'] + tail)))))
  {
    var name, escaped := NameText(x), Escape(x.pair.value);
    Assoc(escaped, ['"'], tail);
    Assoc(['"'], escaped + ['"'], tail);
    Assoc(x.beforeValue, ['"'] + (escaped + ['"']), tail);
    Assoc(['='], x.beforeValue + (['"'] + (escaped + ['"'])), tail);
    Assoc(name, ['='] + (x.beforeValue + (['"'] + (escaped + ['"']))), tail);
    Assoc(u, name, ['='] + (x.beforeValue + (['"'] + (escaped + (['"'] + tail)))));
  }

  /** After text that is not its name, a label is never read as the first of the list. */
  lemma StrayTextBreaks(u: string, xs: seq<Padded>)
    requires xs != [] && AllShaped(xs) && '=' !in u
    requires u != "" || xs[0].before != "" || xs[0].afterName != "" || xs[0].beforeValue != ""
    ensures ParsePairs(u + PrintAllPadded(xs)) != LabelsOf(xs)
  {
    var tail := xs[0].afterValue + (if |xs| == 1 then "" else [','] + PrintAllPadded(xs[1..]));
    PaddedHead(u, xs[0], tail);
    var r := ParsePairs(u + PrintAllPadded(xs));
    if xs[0].beforeValue == "" {
      assert r[0].key == u + NameText(xs[0]);
      assert |r[0].key| > |xs[0].pair.key|;
    }
  }

  lemma BlankTail(s: string)
    requires AllBlank(s)
    ensures ParsePairs(SkipComma(s)) == []
  {
    IndexOfNone(s, '=');
  }

  /** A list of labels with blanks is read back if and only if the only blanks are behind the
      last value. */
  lemma {:induction false} PaddedRoundTripIff(xs: seq<Padded>)
    requires AllShaped(xs)
    ensures ParsePairs(PrintAllPadded(xs)) == LabelsOf(xs) <==> Tight(xs)
    decreases |xs|, 0
  {
    if xs != [] {
      var x, more := xs[0], xs[1..];
      if x.before != "" || x.afterName != "" || x.beforeValue != "" {
        StrayTextBreaks("", xs);
        assert "" + PrintAllPadded(xs) == PrintAllPadded(xs);
      } else {
        var tail := x.afterValue + (if more == [] then "" else [','] + PrintAllPadded(more));
        HeadRead(xs, tail);
        ConsIff(x.pair, ParsePairs(SkipComma(tail)), LabelsOf(more));
        TailIff(x, more, tail);
        TightStep(xs);
      }
    }
  }

  lemma HeadRead(xs: seq<Padded>, tail: string)
    requires xs != [] && ShapedPadded(xs[0])
    requires xs[0].before == "" && xs[0].afterName == "" && xs[0].beforeValue == ""
    requires tail == xs[0].afterValue + (if |xs| == 1 then "" else [','] + PrintAllPadded(xs[1..]))
    ensures ParsePairs(PrintAllPadded(xs)) == [xs[0].pair] + ParsePairs(SkipComma(tail))
  {
    TightHead(xs[0], tail);
  }

  lemma TightHead(x: Padded, tail: string)
    requires ShapedPadded(x) && x.before == "" && x.afterName == "" && x.beforeValue == ""
    ensures ParsePairs(PrintPadded(x) + tail) == [x.pair] + ParsePairs(SkipComma(tail))
  {
    PaddedHead("", x, tail);
    EmptyLeft(PrintPadded(x) + tail);
    EmptyLeft(NameText(x));
    TightName(x);
  }

  lemma TightName(x: Padded)
    requires x.before == "" && x.afterName == ""
    ensures NameText(x) == x.pair.key
  {
  }

  lemma TightStep(xs: seq<Padded>)
    requires xs != [] && xs[0].before == "" && xs[0].afterName == "" && xs[0].beforeValue == ""
    ensures Tight(xs) <==> (|xs| == 1 || xs[0].afterValue == "") && Tight(xs[1..])
  {
    var more := xs[1..];
    assert forall i :: 0 <= i < |more| ==> more[i] == xs[i + 1];
    if Tight(more) && (|xs| == 1 || xs[0].afterValue == "") {
      forall i | 0 <= i < |xs|
        ensures xs[i].before == "" && xs[i].afterName == "" && xs[i].beforeValue == ""
                && (i < |xs| - 1 ==> xs[i].afterValue == "")
      {
        if i > 0 {
          assert more[i - 1] == xs[i];
        }
      }
    }
  }

  lemma {:induction false} TailIff(x: Padded, more: seq<Padded>, tail: string)
    requires ShapedPadded(x) && AllShaped(more)
    requires tail == x.afterValue + (if more == [] then "" else [','] + PrintAllPadded(more))
    ensures ParsePairs(SkipComma(tail)) == LabelsOf(more)
            <==> (more == [] || x.afterValue == "") && Tight(more)
    decreases |more|, 1
  {
    if more == [] {
      assert tail == x.afterValue;
      BlankTail(tail);
    } else if x.afterValue == "" {
      assert tail == [','] + PrintAllPadded(more);
      assert SkipComma(tail) == PrintAllPadded(more);
      PaddedRoundTripIff(more);
    } else {
      assert tail[0] == x.afterValue[0] && SkipComma(tail) == tail;
      var u := x.afterValue + [','];
      Assoc(x.afterValue, [','], PrintAllPadded(more));
      assert tail == u + PrintAllPadded(more);
      StrayTextBreaks(u, more);
    }
  }

  /** A name read together with blanks is none of the known names: its value is dropped. */
  lemma PaddedNameUnknown(x: Padded)
    requires ShapedPadded(x) && NoSpace(x.pair.key) && (x.before != "" || x.afterName != "")
    ensures KindOf(NameText(x)) == Other
  {
    var name := NameText(x);
    if x.before != "" {
      assert name[0] == x.before[0];
    } else {
      assert name[|name| - 1] == x.afterName[|x.afterName| - 1];
    }
    if KindOf(name) != Other {
      KnownNamesTight(name);
      assert false;
    }
  }

  lemma KnownNamesTight(name: string)
    requires KindOf(name) != Other
    ensures name != "" && name[0] !in " \t" && name[|name| - 1] !in " \t"
  {
  }

  /** With a gap before the label block and blanks inside it, a metric line is read back if and
      only if the gap is empty and the labels are tight; blanks around the value are free. */
  lemma {:induction false} BlankedLineIff(
    name: string, gap: string, xs: seq<Padded>, value: string, rest: string, parseFloat: FloatParser)
    requires '{' !in name && AllBlank(gap) && AllShaped(xs)
    requires '}' !in value + rest && value != "" && NoSpace(value)
    requires rest == "" || (IsSpace(rest[0]) && !IsSpace(rest[|rest| - 1]))
    requires parseFloat(value).Some?
    ensures var line := (name + gap) + (['{'] + PrintAllPadded(xs) + (['}'] + ([' '] + (value + rest))));
            ReadLine(line, parseFloat) == Some(Reading(name, LabelsOf(xs), parseFloat(value).value))
            <==> gap == "" && Tight(xs)
  {
    LabelledRoundTrip(name + gap, PrintAllPadded(xs), value, rest, parseFloat);
    PaddedRoundTripIff(xs);
    assert gap == "" ==> name + gap == name;
    assert gap != "" ==> |name + gap| > |name|;
  }
}
