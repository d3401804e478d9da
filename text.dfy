/**
 * Character-level helpers the cleaning pipeline relies on: Python's
 * `str.strip()`, the regex classes `\s` and `\d`, the `(\d+)` id extraction
 * followed by `astype(int)`, and `str(int)` as SQLite renders an integer
 * stored into a TEXT column.  Only the ASCII part of Python's Unicode
 * character classes is modelled.
 */
module Text {
  import opened Common

  /** Whitespace as `str.strip()` and the regex class `\s` see it (ASCII range). */
  predicate IsSpace(c: char) {
    c == ' ' || c == '\t' || c == '\n' || c == '\r' || c == '\U{B}' || c == '\U{C}'
    || c == '\U{1C}' || c == '\U{1D}' || c == '\U{1E}' || c == '\U{1F}'
  }

  predicate IsDigit(c: char) {
    '0' <= c <= '9'
  }

  function DigitValue(c: char): (d: nat)
    requires IsDigit(c)
    ensures d < 10
  {
    (c as int) - ('0' as int)
  }

  function DigitChar(d: nat): (c: char)
    requires d < 10
    ensures IsDigit(c) && DigitValue(c) == d
  {
    ((('0' as int) + d) as char)
  }

  predicate AllDigits(s: string) {
    forall i | 0 <= i < |s| :: IsDigit(s[i])
  }

  predicate NoDigits(s: string) {
    forall i | 0 <= i < |s| :: !IsDigit(s[i])
  }

  predicate NoSpaces(s: string) {
    forall i | 0 <= i < |s| :: !IsSpace(s[i])
  }

  predicate AllSpaces(s: string) {
    forall i | 0 <= i < |s| :: IsSpace(s[i])
  }

  // ---------------------------------------------------------------------
  // str.strip()

  /** A string with no whitespace at either end. */
  predicate IsStripped(s: string) {
    s == [] || (!IsSpace(s[0]) && !IsSpace(s[|s| - 1]))
  }

  /** Number of whitespace characters `s` starts with. */
  function LeadingSpaces(s: string): (n: nat)
    ensures n <= |s| && AllSpaces(s[..n])
    ensures n < |s| ==> !IsSpace(s[n])
  {
    if s != [] && IsSpace(s[0]) then
      var n := 1 + LeadingSpaces(s[1..]);
      assert s[..n] == [s[0]] + s[1..][..n - 1];
      n
    else 0
  }

  /** Number of whitespace characters `s` ends with. */
  function TrailingSpaces(s: string): (n: nat)
    ensures n <= |s| && AllSpaces(s[|s| - n..])
    ensures n < |s| ==> !IsSpace(s[|s| - n - 1])
  {
    if s != [] && IsSpace(s[|s| - 1]) then
      var n := 1 + TrailingSpaces(s[..|s| - 1]);
      assert s[|s| - n..] == s[..|s| - 1][|s| - n..] + [s[|s| - 1]];
      n
    else 0
  }

  /** `s` without its leading whitespace (`str.lstrip()`). */
  function TrimStart(s: string): (r: string) {
    s[LeadingSpaces(s)..]
  }

  /** Python's `str.strip()`: the middle of `s` left after cutting the
      whitespace at both ends; what is cut is whitespace only, and what is
      left neither starts nor ends with whitespace. */
  function Strip(s: string): (r: string)
    ensures IsStripped(r)
    ensures var a := LeadingSpaces(s);
      a + |r| <= |s| && r == s[a..a + |r|] && AllSpaces(s[..a]) && AllSpaces(s[a + |r|..])
  {
    var a := LeadingSpaces(s);
    var t := s[a..];
    var n := TrailingSpaces(t);
    var r := t[..|t| - n];
    assert r != [] ==> r[0] == s[a] && r[|r| - 1] == t[|t| - n - 1];
    assert s[a + |r|..] == t[|t| - n..];
    r
  }

  /** Stripping a string that has no whitespace at its ends changes nothing,
      so stripping twice is the same as stripping once. */
  lemma StripStripped(s: string)
    requires IsStripped(s)
    ensures Strip(s) == s
  {
    assert LeadingSpaces(s) == 0;
    assert TrailingSpaces(s) == 0;
  }

  /** `Strip` applied to a column value; a null stays null. */
  function StripField(field: Option<string>): (r: Option<string>)
    ensures r.None? <==> field.None?
    ensures r.Some? ==> r.value == Strip(field.value)
  {
    match field
    case None => None
    case Some(s) => Some(Strip(s))
  }

  // ---------------------------------------------------------------------
  // Decimal digit strings

  /** The number a string of decimal digits denotes (leading zeros allowed). */
  function Value(s: string): nat
    requires AllDigits(s)
  {
    if s == [] then 0 else Value(s[..|s| - 1]) * 10 + DigitValue(s[|s| - 1])
  }

  function Pow10(n: nat): (p: nat)
    ensures p >= 1
  {
    if n == 0 then 1 else 10 * Pow10(n - 1)
  }

  /** `str(n)` for a non-negative integer: its shortest decimal rendering. */
  function Decimal(n: nat): (r: string)
    ensures r != [] && AllDigits(r) && Value(r) == n
    ensures |r| == 1 || r[0] != '0'
  {
    if n < 10 then [DigitChar(n)]
    else
      var r := Decimal(n / 10) + [DigitChar(n % 10)];
      assert r[..|r| - 1] == Decimal(n / 10);
      r
  }

  /** `n` written with exactly `width` digits, zero-padded on the left, as
      `%0<width>d` does. */
  function Padded(n: nat, width: nat): (r: string)
    requires n < Pow10(width)
    ensures |r| == width && AllDigits(r) && Value(r) == n
  {
    if width == 0 then []
    else
      var r := Padded(n / 10, width - 1) + [DigitChar(n % 10)];
      assert r[..|r| - 1] == Padded(n / 10, width - 1);
      r
  }

  // ---------------------------------------------------------------------
  // Id extraction: `.str.extract(r"(\d+)")[0].astype(int)`

  /** Index of the first digit of `s`, or `|s|` when it has none. */
  function FirstDigit(s: string): (i: nat)
    ensures i <= |s| && NoDigits(s[..i])
    ensures i < |s| ==> IsDigit(s[i])
  {
    if s == [] || IsDigit(s[0]) then 0
    else
      var i := 1 + FirstDigit(s[1..]);
      assert s[..i] == [s[0]] + s[1..][..i - 1];
      i
  }

  /** End of the maximal run of digits of `s` that starts at `i`. */
  function DigitRunEnd(s: string, i: nat): (j: nat)
    requires i <= |s|
    ensures i <= j <= |s| && AllDigits(s[i..j])
    ensures j < |s| ==> !IsDigit(s[j])
    decreases |s| - i
  {
    if i < |s| && IsDigit(s[i]) then DigitRunEnd(s, i + 1) else i
  }

  /** The integer value of the first maximal run of digits of an id field.
      `None` stands for the NaN that `astype(int)` refuses: a field that is
      missing or holds no digit. */
  function ExtractId(field: Option<string>): (r: Option<nat>)
    ensures field.None? ==> r.None?
    ensures field.Some? ==> (r.None? <==> NoDigits(field.value))
  {
    match field
    case None => None
    case Some(s) =>
      var i := FirstDigit(s);
      if i == |s| then
        assert s[..i] == s;
        None
      else
        Some(Value(s[i..DigitRunEnd(s, i)]))
  }

  lemma {:induction false} FirstDigitAt(s: string, k: nat)
    requires k < |s| && NoDigits(s[..k]) && IsDigit(s[k])
    ensures FirstDigit(s) == k
  {
    if k > 0 {
      assert s[..k][0] == s[0];
      assert s[1..][..k - 1] == s[1..k];
      FirstDigitAt(s[1..], k - 1);
    }
  }

  lemma {:induction false} DigitRunEndAt(s: string, i: nat, k: nat)
    requires i <= k <= |s| && AllDigits(s[i..k])
    requires k < |s| ==> !IsDigit(s[k])
    ensures DigitRunEnd(s, i) == k
    decreases k - i
  {
    if i < k {
      assert s[i..k][0] == s[i];
      assert s[i + 1..k] == s[i..k][1..];
      DigitRunEndAt(s, i + 1, k);
    }
  }

  /** Independent description of `ExtractId`: for a field that splits into a
      digit-free prefix, a run of digits and a rest that does not continue
      the run, the extracted id is the value of that run. */
  lemma ExtractIdOfSplit(prefix: string, digits: string, rest: string)
    requires NoDigits(prefix) && digits != [] && AllDigits(digits)
    requires rest == [] || !IsDigit(rest[0])
    ensures ExtractId(Some(prefix + digits + rest)) == Some(Value(digits))
  {
    var s := prefix + digits + rest;
    assert forall k | 0 <= k < |prefix| :: s[k] == prefix[k];
    assert forall k | 0 <= k < |digits| :: s[|prefix| + k] == digits[k];
    assert |prefix| + |digits| < |s| ==> s[|prefix| + |digits|] == rest[0];
    assert s[..|prefix|] == prefix;
    FirstDigitAt(s, |prefix|);
    var i := FirstDigit(s);
    assert s[i..i + |digits|] == digits;
    DigitRunEndAt(s, i, i + |digits|);
    var j := DigitRunEnd(s, i);
    assert s[i..j] == digits;
  }

  /** An integer written by `str()` is read back by the id extraction. */
  lemma ExtractDecimal(n: nat)
    ensures ExtractId(Some(Decimal(n))) == Some(n)
  {
    ExtractIdOfSplit([], Decimal(n), []);
    assert [] + Decimal(n) + [] == Decimal(n);
  }

  /** For example, `"PROD-0042"` yields 42. */
  lemma ExtractIdExample()
    ensures ExtractId(Some("PROD-0042")) == Some(42)
  {
    assert "PROD-0042" == "PROD-" + "0042" + "";
    assert Value("0042") == 42 by {
      assert "0042"[..3] == "004" && "004"[..2] == "00" && "00"[..1] == "0" && "0"[..0] == "";
    }
    ExtractIdOfSplit("PROD-", "0042", "");
  }

  // ---------------------------------------------------------------------
  // Words: the tokens between runs of whitespace

  /** The longest prefix of `s` with no whitespace. */
  function TakeWord(s: string): (w: string)
    ensures |w| <= |s| && w == s[..|w|] && NoSpaces(w)
    ensures |w| < |s| ==> IsSpace(s[|w|])
  {
    if s == [] || IsSpace(s[0]) then []
    else
      var w := [s[0]] + TakeWord(s[1..]);
      assert w[1..] == TakeWord(s[1..]);
      w
  }

  /** The maximal runs of non-whitespace of `s`, in order (`str.split()`). */
  function Words(s: string): (ws: seq<string>)
    decreases |s|
  {
    var t := TrimStart(s);
    if t == [] then []
    else
      var w := TakeWord(t);
      [w] + Words(t[|w|..])
  }

  /** Whitespace in front of a string is what `TrimStart` removes. */
  lemma {:induction false} TrimStartAfterSpaces(sp: string, rest: string)
    requires AllSpaces(sp)
    ensures TrimStart(sp + rest) == TrimStart(rest)
    decreases |sp|
  {
    if sp == [] {
      assert sp + rest == rest;
    } else {
      assert (sp + rest)[0] == sp[0];
      assert (sp + rest)[1..] == sp[1..] + rest;
      TrimStartAfterSpaces(sp[1..], rest);
    }
  }

  /** Whitespace in front of a string does not change its words. */
  lemma WordsAfterSpaces(sp: string, rest: string)
    requires AllSpaces(sp)
    ensures Words(sp + rest) == Words(rest)
  {
    TrimStartAfterSpaces(sp, rest);
    var t := TrimStart(rest);
    var ws := if t == [] then [] else [TakeWord(t)] + Words(t[|TakeWord(t)|..]);
    assert Words(rest) == ws;
    assert Words(sp + rest) == ws;
  }

  /** A word followed by whitespace (or by nothing) is the first word. */
  lemma WordsCons(w: string, rest: string)
    requires w != [] && NoSpaces(w)
    requires rest == [] || IsSpace(rest[0])
    ensures Words(w + rest) == [w] + Words(rest)
  {
    var s := w + rest;
    assert TrimStart(s) == s;
    assert forall k | 0 <= k < |w| :: s[k] == w[k];
    assert |w| < |s| ==> s[|w|] == rest[0];
    var v := TakeWord(s);
    assert v == w;
    assert s[|w|..] == rest;
  }

  /** Words joined by single spaces. */
  function Spaced(ws: seq<string>): string {
    if ws == [] then []
    else if |ws| == 1 then ws[0]
    else ws[0] + " " + Spaced(ws[1..])
  }

  /** Splitting words joined by single spaces gives back the words. */
  lemma {:induction false} WordsOfSpaced(ws: seq<string>)
    requires forall i | 0 <= i < |ws| :: ws[i] != [] && NoSpaces(ws[i])
    ensures Words(Spaced(ws)) == ws
  {
    if ws == [] {
    } else if |ws| == 1 {
      WordsCons(ws[0], []);
      assert ws[0] + [] == ws[0];
    } else {
      var rest := Spaced(ws[1..]);
      assert Spaced(ws) == ws[0] + (" " + rest);
      WordsCons(ws[0], " " + rest);
      WordsAfterSpaces(" ", rest);
      WordsOfSpaced(ws[1..]);
      assert Words(Spaced(ws)) == [ws[0]] + ws[1..];
    }
  }

  // ---------------------------------------------------------------------
  // Substrings and ASCII case folding

  /** Python's `pattern in s`. */
  predicate Contains(s: string, pattern: string) {
    exists i | 0 <= i <= |s| - |pattern| :: OccursAt(s, pattern, i)
  }

  predicate OccursAt(s: string, pattern: string, i: nat) {
    i + |pattern| <= |s| && s[i..i + |pattern|] == pattern
  }

  function LowerChar(c: char): char {
    if 'A' <= c <= 'Z' then ((c as int) + 32) as char else c
  }

  function Lower(s: string): (r: string)
    ensures |r| == |s|
  {
    seq(|s|, i requires 0 <= i < |s| => LowerChar(s[i]))
  }
}
