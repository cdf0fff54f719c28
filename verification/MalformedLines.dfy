/** What the exposition parser does with any line and any label text, well-formed or not
    (internal/collector/gpu/parser.go, parseSampleLine and parseLabels). */
module MalformedLines {
  import opened Prelude
  import opened Text
  import opened LabelSchema
  import opened Exposition

  lemma {:induction false} LastIndexSkips(s: string, c: char, tail: string)
    requires c !in tail
    ensures LastIndexOf(s + tail, c) == LastIndexOf(s, c)
  {
    if tail == "" {
      assert s + tail == s;
    } else {
      assert (s + tail)[..|s + tail| - 1] == s + tail[..|tail| - 1];
      LastIndexSkips(s, c, tail[..|tail| - 1]);
    }
  }

  /** Without an open brace a line is its first two words. */
  lemma BareLine(line: string, parseFloat: FloatParser)
    requires '{' !in line
    ensures var words := Fields(line);
            ReadLine(line, parseFloat) ==
            if |words| < 2 || parseFloat(words[1]).None? then None
            else Some(Reading(words[0], [], parseFloat(words[1]).value))
  {
    IndexOfNone(line, '{');
  }

  /** With one, the name is what precedes the first, the labels reach to the last closing one,
      and the value is the first word behind that. */
  lemma LabelledLine(name: string, text: string, tail: string, parseFloat: FloatParser)
    requires '{' !in name && '}' !in tail
    ensures var words := Fields(TrimSpace(tail));
            ReadLine(name + ['{'] + text + ['}'] + tail, parseFloat) ==
            if words == [] || parseFloat(words[0]).None? then None
            else Some(Reading(name, ParsePairs(text), parseFloat(words[0]).value))
  {
    var s := name + ['{'] + text + ['}'] + tail;
    var open, close := |name|, |name| + 1 + |text|;
    assert s[..open] == name && s[open + 1..close] == text && s[close + 1..] == tail;
    BlockRead(s, open, close, name, text, tail, parseFloat);
  }

  /** If no closing brace follows the first open one, the line is dropped. */
  lemma UnclosedLine(name: string, rest: string, parseFloat: FloatParser)
    requires '{' !in name && '}' !in rest
    ensures ReadLine(name + ['{'] + rest, parseFloat) == None
  {
    var s := name + ['{'] + rest;
    assert s[..|name|] == name && s[|name|] == '{';
    IndexOfAt(s, '{', |name|);
    assert s == name + (['{'] + rest);
    LastIndexSkips(name, '}', ['{'] + rest);
    ReadLineAt(s, |name|, LastIndexOf(name, '}'), parseFloat);
  }

  lemma SplitFirst(s: string, c: char) returns (before: string, after: string)
    requires c in s
    ensures c !in before && s == before + [c] + after
  {
    FirstIndex(s, c);
    var i := IndexOf(s, c);
    before, after := s[..i], s[i + 1..];
  }

  lemma SplitLast(s: string, c: char) returns (before: string, after: string)
    requires c in s
    ensures c !in after && s == before + [c] + after
  {
    FinalIndex(s, c);
    var i := LastIndexOf(s, c);
    before, after := s[..i], s[i + 1..];
  }

  /** Every line is of one of these forms. */
  lemma LineForms(line: string) returns (name: string, text: string, tail: string)
    requires '{' in line
    ensures '{' !in name && '}' !in tail
    ensures line == name + ['{'] + text + ['}'] + tail || line == name + ['{'] + tail
  {
    var rest;
    name, rest := SplitFirst(line, '{');
    if '}' in rest {
      text, tail := SplitLast(rest, '}');
      Assoc(name + ['{'], text + ['}'], tail);
      Assoc(name + ['{'], text, ['}']);
    } else {
      text, tail := "", rest;
    }
  }

  lemma {:induction false} FirstIndex(s: string, c: char)
    ensures c in s ==> IndexOf(s, c) >= 0 && s[IndexOf(s, c)] == c && c !in s[..IndexOf(s, c)]
  {
    if c in s && s[0] != c {
      assert s == [s[0]] + s[1..];
      FirstIndex(s[1..], c);
      var i := IndexOf(s[1..], c);
      assert s[..i + 1] == [s[0]] + s[1..][..i];
    }
  }

  lemma {:induction false} FinalIndex(s: string, c: char)
    ensures c !in s <==> LastIndexOf(s, c) == -1
    ensures c in s ==> s[LastIndexOf(s, c)] == c && c !in s[LastIndexOf(s, c) + 1..]
  {
    if s != "" && s[|s| - 1] != c {
      var p := s[..|s| - 1];
      assert s == p + [s[|s| - 1]];
      FinalIndex(p, c);
      if c in p {
        var i := LastIndexOf(p, c);
        assert s[i + 1..] == p[i + 1..] + [s[|s| - 1]];
      }
    }
  }

  // ---- Labels ----

  /** Reading labels stops where no '=' follows, or where no quote follows the '='. */
  lemma LabelsStop(key: string, after: string)
    requires '=' !in key && (after == "" || after[0] != '"')
    ensures ParsePairs(key) == [] && ParsePairs(key + ['='] + after) == []
  {
    IndexOfNone(key, '=');
    var s := key + ['='] + after;
    assert s[..|key|] == key && s[|key|] == '=' && s[|key| + 1..] == after;
    IndexOfAt(s, '=', |key|);
  }

  /** Otherwise the text up to the '=' is a label's name, and its value is read from the quote
      on; one comma behind the value is skipped. */
  lemma LabelsGoOn(key: string, quoted: string)
    requires '=' !in key
    ensures var (value, rest) := ReadValue(quoted);
            ParsePairs(key + ['=', '"'] + quoted) ==
            [Label(key, value)] + ParsePairs(if rest != "" && rest[0] == ',' then rest[1..] else rest)
  {
    var s := key + ['=', '"'] + quoted;
    assert s[..|key|] == key && s[|key|] == '=' && s[|key| + 1] == '"';
    assert s[|key| + 1..][1..] == quoted;
    IndexOfAt(s, '=', |key|);
    var r := ReadValue(quoted);
    PairsNext(s, |key|, r.0, r.1);
  }

  // ---- Bytes ----

  /** A character takes one byte, and one more at each of the three bounds of UTF-8. */
  lemma {:induction false} BytesOfText(s: string)
    ensures ByteLen(s) == |s| + SumInt(s, (c: char) => if c as int >= 128 then 1 else 0)
                          + SumInt(s, (c: char) => if c as int >= 2048 then 1 else 0)
                          + SumInt(s, (c: char) => if c as int >= 65536 then 1 else 0)
  {
    if s != "" {
      BytesOfText(s[..|s| - 1]);
    }
  }
}
