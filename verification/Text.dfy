/** The string operations of the Go standard library that the agent's hand-written
    parsers and messages are built from. A `string` is the sequence of code points
    of a valid UTF-8 text: every delimiter searched for is ASCII, so searching bytes
    and searching code points find the same places. */
module Text {

  /** unicode.IsSpace */
  predicate IsSpace(c: char) {
    var n := c as int;
    9 <= n <= 13 || n == 32 || n == 0x85 || n == 0xA0 || n == 0x1680
    || 0x2000 <= n <= 0x200A || n == 0x2028 || n == 0x2029 || n == 0x202F
    || n == 0x205F || n == 0x3000
  }

  predicate NoSpace(s: string) {
    forall i :: 0 <= i < |s| ==> !IsSpace(s[i])
  }

  /** strings.IndexByte */
  function IndexOf(s: string, c: char): (r: int)
    ensures -1 <= r < |s|
  {
    if s == "" then -1
    else if s[0] == c then 0
    else
      var rest := IndexOf(s[1..], c);
      if rest < 0 then -1 else rest + 1
  }

  /** strings.LastIndexByte */
  function LastIndexOf(s: string, c: char): (r: int)
    ensures -1 <= r < |s|
  {
    if s == "" then -1
    else if s[|s| - 1] == c then |s| - 1
    else LastIndexOf(s[..|s| - 1], c)
  }

  function TrimLeft(s: string): (r: string)
    ensures |r| <= |s|
  {
    if s != "" && IsSpace(s[0]) then TrimLeft(s[1..]) else s
  }

  function TrimRight(s: string): (r: string)
    ensures |r| <= |s|
  {
    if s != "" && IsSpace(s[|s| - 1]) then TrimRight(s[..|s| - 1]) else s
  }

  /** strings.TrimSpace */
  function TrimSpace(s: string): string {
    TrimRight(TrimLeft(s))
  }

  /** The length of the leading run of non-space characters. */
  function TokenLength(s: string): (n: nat)
    ensures n <= |s|
  {
    if s == "" || IsSpace(s[0]) then 0 else 1 + TokenLength(s[1..])
  }

  /** strings.Fields */
  function Fields(s: string): seq<string> {
    if s == "" then []
    else if IsSpace(s[0]) then Fields(s[1..])
    else
      var n := TokenLength(s);
      [s[..n]] + Fields(s[n..])
  }

  /** The number of bytes UTF-8 uses for a code point. */
  function Utf8Width(c: char): nat {
    var n := c as int;
    if n < 0x80 then 1 else if n < 0x800 then 2 else if n < 0x10000 then 3 else 4
  }

  function ByteLen(s: string): nat {
    if s == "" then 0 else ByteLen(s[..|s| - 1]) + Utf8Width(s[|s| - 1])
  }

  /** bufio.MaxScanTokenSize: a line of this many bytes or more ends the scan. */
  const MAX_SCAN_TOKEN := 65536

  function DropCR(line: string): string {
    if line != "" && line[|line| - 1] == '\r' then line[..|line| - 1] else line
  }

  /** The tokens of a bufio.Scanner with ScanLines over the whole text. */
  function ScanLines(data: string): seq<string> {
    if data == "" then []
    else
      var nl := IndexOf(data, '\n');
      var line := if nl < 0 then data else data[..nl];
      if ByteLen(line) >= MAX_SCAN_TOKEN then []
      else [DropCR(line)] + (if nl < 0 then [] else ScanLines(data[nl + 1..]))
  }

  /** strings.Contains */
  predicate Contains(s: string, sub: string) {
    exists i :: 0 <= i <= |s| - |sub| && OccursAt(s, sub, i)
  }

  predicate OccursAt(s: string, sub: string, i: nat)
    requires i + |sub| <= |s|
  {
    s[i..i + |sub|] == sub
  }

  function Digit(d: nat): char
    requires d < 10
  {
    "0123456789"[d]
  }

  /** strconv.Itoa, the `%d` verb. */
  function FormatNat(n: nat): string {
    if n < 10 then [Digit(n)] else FormatNat(n / 10) + [Digit(n % 10)]
  }

  function FormatInt(n: int): string {
    if n < 0 then "-" + FormatNat(-n) else FormatNat(n)
  }

  lemma {:induction false} TrimSpaceKeeps(s: string)
    requires s != "" && !IsSpace(s[0]) && !IsSpace(s[|s| - 1])
    ensures TrimSpace(s) == s
  {
  }

  /** A token followed by a space or by the end is one field. */
  lemma {:induction false} FieldsHead(t: string, rest: string)
    requires t != "" && NoSpace(t)
    requires rest == "" || IsSpace(rest[0])
    ensures Fields(t + rest) == [t] + Fields(rest)
  {
    var s := t + rest;
    TokenLengthPrefix(t, rest);
    assert s[..|t|] == t && s[|t|..] == rest;
    assert s[0] == t[0];
  }

  lemma {:induction false} TokenLengthPrefix(t: string, rest: string)
    requires NoSpace(t)
    requires rest == "" || IsSpace(rest[0])
    ensures TokenLength(t + rest) == |t|
  {
    var s := t + rest;
    if t == "" {
      assert s == rest;
    } else {
      assert s[1..] == t[1..] + rest;
      TokenLengthPrefix(t[1..], rest);
    }
  }

  lemma {:induction false} IndexOfAt(s: string, c: char, i: nat)
    requires i < |s| && s[i] == c && c !in s[..i]
    ensures IndexOf(s, c) == i
  {
    if i > 0 {
      assert s[..i][0] == s[0];
      assert s[1..][..i - 1] == s[..i][1..];
      IndexOfAt(s[1..], c, i - 1);
    }
  }

  lemma {:induction false} IndexOfNone(s: string, c: char)
    requires c !in s
    ensures IndexOf(s, c) == -1
  {
    if s != "" {
      IndexOfNone(s[1..], c);
    }
  }

  lemma {:induction false} LastIndexOfAt(s: string, c: char, i: nat)
    requires i < |s| && s[i] == c && c !in s[i + 1..]
    ensures LastIndexOf(s, c) == i
  {
    if i < |s| - 1 {
      var p := s[..|s| - 1];
      assert s[i + 1..][|s| - 2 - i] == s[|s| - 1];
      assert p[i + 1..] == s[i + 1..][..|s| - 2 - i];
      LastIndexOfAt(p, c, i);
    }
  }

  /** The number that decimal digits write. */
  function ReadDigits(s: string): int {
    if s == "" then 0 else 10 * ReadDigits(s[..|s| - 1]) + (s[|s| - 1] as int - '0' as int)
  }

  /** A printed number is read back. */
  lemma {:induction false} FormatReadsBack(n: nat)
    ensures ReadDigits(FormatNat(n)) == n
  {
    if n < 10 {
      assert [Digit(n)][..0] == [];
    } else {
      FormatReadsBack(n / 10);
      var s := FormatNat(n);
      assert s[..|s| - 1] == FormatNat(n / 10);
    }
  }

  /** No decimal rendering contains anything but digits and a minus sign. */
  lemma {:induction false} FormatNatDigits(n: nat)
    ensures forall c :: c in FormatNat(n) ==> '0' <= c <= '9'
  {
    if n >= 10 {
      FormatNatDigits(n / 10);
    }
  }

  lemma {:induction false} FormatIntDigits(n: int)
    ensures forall c :: c in FormatInt(n) ==> c == '-' || '0' <= c <= '9'
  {
    FormatNatDigits(if n < 0 then -n else n);
  }

  /** A text that lacks one character of `sub` does not contain `sub`. */
  lemma {:induction false} LacksChar(s: string, sub: string, i: nat)
    requires i < |sub| && sub[i] !in s
    ensures !Contains(s, sub)
  {
    forall k | 0 <= k <= |s| - |sub|
      ensures !OccursAt(s, sub, k)
    {
      assert s[k + i] in s;
      assert s[k..k + |sub|][i] == s[k + i];
    }
  }

  lemma {:induction false} ContainsMiddle(pre: string, sub: string, post: string)
    ensures Contains(pre + sub + post, sub)
  {
    var s := pre + sub + post;
    assert s[|pre|..|pre| + |sub|] == sub;
    assert OccursAt(s, sub, |pre|);
  }
}
