/**
  The JavaScript built-ins that the orbit parser and the event stitcher lean
  on, written out as Dafny functions: `String.prototype.split` with a
  one-character separator, `trim().split(/\s+/)`, `indexOf(...) !== -1`,
  `slice`, `parseInt` without a radix, the decimal keys that `for...in`
  yields for an array, and the `"undefined"` text that string concatenation
  produces for a missing value. Exceptions the converters can raise are the
  constructors of `Failure`.
 */
module JsRuntime {

  datatype Option<+T> = None | Some(value: T)

  /** The exceptions a conversion can end with. */
  datatype Failure =
    | UndefinedLine       // TypeError: `value[i]` read past the end of the line array
    | InvalidDateString   // `stringToDate` called with an empty or undefined string
    | InvalidTimeValue    // RangeError: `toISOString` on an invalid Date
    | UndefinedEventPart  // TypeError: an empty run has no first event
    | PushOnInherited     // TypeError: `obj[name].push` where `obj[name]` is inherited from `Object.prototype`

  datatype Result<+T> = Ok(value: T) | Err(failure: Failure)

  /** `'' + v` for a value that is a string or undefined. */
  function Str(s: Option<string>): string {
    if s.Some? then s.value else "undefined"
  }

  /** `a[k]` on an array of strings: undefined past the end. */
  function At(a: seq<string>, k: nat): Option<string> {
    if k < |a| then Some(a[k]) else None
  }

  /** ECMAScript WhiteSpace and LineTerminator code points: what `trim`,
      `\s` and `parseInt` skip. */
  predicate IsSpace(c: char) {
    || c == '\t' || c == '\n' || c == '\U{B}' || c == '\U{C}' || c == '\r'
    || c == ' ' || c == '\U{A0}' || c == '\U{1680}'
    || ('\U{2000}' <= c <= '\U{200A}')
    || c == '\U{2028}' || c == '\U{2029}' || c == '\U{202F}' || c == '\U{205F}'
    || c == '\U{3000}' || c == '\U{FEFF}'
  }

  // ---------------------------------------------------------------- split

  /** `s.split(sep)`: the pieces between occurrences of `sep`; never empty. */
  function Split(s: string, sep: char): (parts: seq<string>)
    ensures |parts| >= 1
    ensures forall k :: 0 <= k < |parts| ==> sep !in parts[k]
    decreases |s|
  {
    if |s| == 0 then [""]
    else
      var rest := Split(s[1..], sep);
      if s[0] == sep then [""] + rest
      else [[s[0]] + rest[0]] + rest[1..]
  }

  /** `parts.join(sep)`. */
  function Join(parts: seq<string>, sep: char): string
    requires |parts| >= 1
    decreases |parts|
  {
    if |parts| == 1 then parts[0] else parts[0] + [sep] + Join(parts[1..], sep)
  }

  /** Splitting and joining again gives the text back. */
  lemma {:induction false} JoinSplit(s: string, sep: char)
    ensures Join(Split(s, sep), sep) == s
    decreases |s|
  {
    if |s| > 0 {
      var rest := Split(s[1..], sep);
      JoinSplit(s[1..], sep);
      if s[0] == sep {
        assert s == [sep] + s[1..];
      } else if |rest| == 1 {
        assert s == [s[0]] + s[1..];
      } else {
        assert Join(rest, sep) == rest[0] + [sep] + Join(rest[1..], sep);
        assert s == [s[0]] + s[1..];
      }
    }
  }

  /** The first piece of `a + sep + b` is `a` when `a` holds no `sep`. */
  lemma {:induction false} SplitAtFirst(a: string, b: string, sep: char)
    requires sep !in a
    ensures Split(a + [sep] + b, sep) == [a] + Split(b, sep)
    decreases |a|
  {
    if |a| == 0 {
      assert a + [sep] + b == [sep] + b;
      assert ([sep] + b)[1..] == b;
    } else {
      SplitAtFirst(a[1..], b, sep);
      var s := a + [sep] + b;
      assert s[0] == a[0] && s[1..] == a[1..] + [sep] + b;
      assert [a[0]] + a[1..] == a;
    }
  }

  /** A text without the separator splits into itself. */
  lemma {:induction false} SplitNone(s: string, sep: char)
    requires sep !in s
    ensures Split(s, sep) == [s]
    decreases |s|
  {
    if s != [] {
      SplitNone(s[1..], sep);
      assert [s[0]] + s[1..] == s;
    }
  }

  // ---------------------------------------------------------- tokenising

  /** The maximal runs of non-white characters of `s`, after the word `cur`
      already begun. */
  function Words(s: string, cur: string): seq<string>
    decreases |s|
  {
    if |s| == 0 then (if cur == "" then [] else [cur])
    else if IsSpace(s[0]) then
      (if cur == "" then Words(s[1..], "") else [cur] + Words(s[1..], ""))
    else Words(s[1..], cur + [s[0]])
  }

  /** `line.trim().split(/\s+/)`: the words of the line, or `[""]` for a
      blank line. */
  function Tokens(line: string): (ts: seq<string>)
    ensures |ts| >= 1
  {
    var w := Words(line, "");
    if w == [] then [""] else w
  }

  /** Every token is a non-empty run of non-white characters (unless the
      line is blank), and the tokens, glued together, are the line with its
      white space removed. */
  lemma {:induction false} WordsAreRuns(s: string, cur: string)
    requires forall c :: c in cur ==> !IsSpace(c)
    ensures forall k :: 0 <= k < |Words(s, cur)| ==>
              Words(s, cur)[k] != "" && forall c :: c in Words(s, cur)[k] ==> !IsSpace(c)
    ensures Concat(Words(s, cur)) == cur + NonSpace(s)
    decreases |s|
  {
    if |s| == 0 {
    } else if IsSpace(s[0]) {
      WordsAreRuns(s[1..], "");
      assert NonSpace(s) == NonSpace(s[1..]);
    } else {
      WordsAreRuns(s[1..], cur + [s[0]]);
      assert NonSpace(s) == [s[0]] + NonSpace(s[1..]);
    }
  }

  function Concat(ws: seq<string>): string
    decreases |ws|
  {
    if ws == [] then "" else ws[0] + Concat(ws[1..])
  }

  function NonSpace(s: string): string
    decreases |s|
  {
    if |s| == 0 then "" else (if IsSpace(s[0]) then "" else [s[0]]) + NonSpace(s[1..])
  }

  // ------------------------------------------------------ indexOf, slice

  /** `s.indexOf(sub) !== -1`. */
  function Contains(s: string, sub: string): bool
    decreases |s|
  {
    if |sub| <= |s| && s[..|sub|] == sub then true
    else if |s| == 0 then false
    else Contains(s[1..], sub)
  }

  /** `sub` occurs in `s` at index `i`. */
  predicate OccursAt(s: string, sub: string, i: int) {
    0 <= i && i + |sub| <= |s| && s[i..i + |sub|] == sub
  }

  /** `Contains` finds exactly the occurrences of `sub` in `s`. */
  lemma {:induction false} ContainsIff(s: string, sub: string)
    ensures Contains(s, sub) <==> exists i :: OccursAt(s, sub, i)
    decreases |s|
  {
    if |sub| <= |s| && s[..|sub|] == sub {
      assert OccursAt(s, sub, 0);
    } else if |s| == 0 {
      assert forall i :: !OccursAt(s, sub, i);
    } else {
      forall i | 0 <= i
        ensures OccursAt(s, sub, i + 1) <==> OccursAt(s[1..], sub, i)
      {
        OccursShift(s, sub, i);
      }
      ContainsIff(s[1..], sub);
      assert forall i :: OccursAt(s, sub, i) ==> i == 0 || OccursAt(s[1..], sub, i - 1);
    }
  }

  /** An occurrence one place further in `s` is an occurrence in its tail. */
  lemma OccursShift(s: string, sub: string, i: nat)
    requires |s| > 0
    ensures OccursAt(s, sub, i + 1) <==> OccursAt(s[1..], sub, i)
  {
    if i + 1 + |sub| <= |s| {
      assert s[i + 1..i + 1 + |sub|] == s[1..][i..i + |sub|];
    }
  }

  /** `s.slice(from, to)` for non-negative bounds: clamped to the length. */
  function Slice(s: string, from: nat, to: nat): (r: string)
    ensures |r| <= |s|
    ensures from <= to <= |s| ==> r == s[from..to]
    ensures to <= from || |s| <= from ==> r == ""
  {
    var a := if from < |s| then from else |s|;
    var b := if to < |s| then to else |s|;
    if a < b then s[a..b] else ""
  }

  // ------------------------------------------------------------ parseInt

  /** The value of `c` as a digit (36 for a character that is no digit in
      any radix). */
  function DigitOf(c: char): nat {
    if '0' <= c <= '9' then (c as int - '0' as int)
    else if 'a' <= c <= 'z' then 10 + (c as int - 'a' as int)
    else if 'A' <= c <= 'Z' then 10 + (c as int - 'A' as int)
    else 36
  }

  /** The digits of the longest prefix of `s` in the given radix. */
  function DigitPrefix(s: string, radix: nat): (ds: seq<nat>)
    ensures |ds| <= |s|
    ensures forall k :: 0 <= k < |ds| ==> ds[k] < radix
    decreases |s|
  {
    if |s| == 0 || DigitOf(s[0]) >= radix then []
    else [DigitOf(s[0])] + DigitPrefix(s[1..], radix)
  }

  /** The number that a digit sequence spells in the given radix. */
  function Value(ds: seq<nat>, radix: nat): nat
    decreases |ds|
  {
    if ds == [] then 0 else Value(ds[..|ds| - 1], radix) * radix + ds[|ds| - 1]
  }

  function TrimStart(s: string): string
    decreases |s|
  {
    if |s| > 0 && IsSpace(s[0]) then TrimStart(s[1..]) else s
  }

  /** `parseInt(s)` with no radix: leading white space, an optional sign,
      a `0x` prefix for hexadecimal, then the longest digit prefix; `None`
      stands for NaN. */
  function ParseInt(s: string): Option<int> {
    ParseSigned(TrimStart(s))
  }

  function ParseSigned(t: string): Option<int> {
    if |t| > 0 && t[0] == '-' then
      (var m := ParseMagnitude(t[1..]); if m.None? then None else Some(-(m.value as int)))
    else if |t| > 0 && t[0] == '+' then ParseMagnitude(t[1..])
    else ParseMagnitude(t)
  }

  function ParseMagnitude(u: string): Option<nat> {
    if |u| >= 2 && u[0] == '0' && (u[1] == 'x' || u[1] == 'X') then ParseDigits(u[2..], 16)
    else ParseDigits(u, 10)
  }

  function ParseDigits(u: string, radix: nat): Option<nat> {
    var ds := DigitPrefix(u, radix);
    if ds == [] then None else Some(Value(ds, radix))
  }

  predicate IsDecimal(c: char) { '0' <= c <= '9' }

  predicate IsHex(c: char) { '0' <= c <= '9' || 'a' <= c <= 'f' || 'A' <= c <= 'F' }

  /** The value of a string of decimal digits. */
  function DecimalValue(s: string): nat
    requires forall k :: 0 <= k < |s| ==> IsDecimal(s[k])
    decreases |s|
  {
    if s == [] then 0 else DecimalValue(s[..|s| - 1]) * 10 + DigitOf(s[|s| - 1])
  }

  /** The value of two decimal digits. */
  lemma TwoDigitValue(s: string)
    requires |s| == 2 && IsDecimal(s[0]) && IsDecimal(s[1])
    ensures DecimalValue(s) == 10 * DigitOf(s[0]) + DigitOf(s[1])
  {
    assert s[..1][..0] == [] && s[..1][0] == s[0];
    assert DecimalValue(s[..1]) == DigitOf(s[0]);
  }

  /** The value of four decimal digits. */
  lemma FourDigitValue(s: string)
    requires |s| == 4 && forall k :: 0 <= k < 4 ==> IsDecimal(s[k])
    ensures DecimalValue(s) == 1000 * DigitOf(s[0]) + 100 * DigitOf(s[1]) + 10 * DigitOf(s[2]) + DigitOf(s[3])
  {
    assert s[..3][..2] == s[..2] && s[..3][2] == s[2];
    TwoDigitValue(s[..2]);
  }

  lemma {:induction false} DigitPrefixOfDecimals(s: string)
    requires forall k :: 0 <= k < |s| ==> IsDecimal(s[k])
    ensures |DigitPrefix(s, 10)| == |s|
    ensures Value(DigitPrefix(s, 10), 10) == DecimalValue(s)
    decreases |s|
  {
    if s != [] {
      var init := s[..|s| - 1];
      DigitPrefixOfDecimals(init);
      DigitPrefixAppend(init, s[|s| - 1], 10);
      assert init + [s[|s| - 1]] == s;
      var ds := DigitPrefix(s, 10);
      assert ds[..|ds| - 1] == DigitPrefix(init, 10);
    }
  }

  lemma {:induction false} DigitPrefixAppend(s: string, c: char, radix: nat)
    requires |DigitPrefix(s, radix)| == |s| && DigitOf(c) < radix
    ensures DigitPrefix(s + [c], radix) == DigitPrefix(s, radix) + [DigitOf(c)]
    decreases |s|
  {
    if |s| == 0 {
      assert s + [c] == [c];
    } else {
      DigitPrefixAppend(s[1..], c, radix);
      assert (s + [c])[1..] == s[1..] + [c];
    }
  }

  /** `parseInt` reads a non-empty string of decimal digits as its value. */
  lemma DecimalParse(s: string)
    requires |s| > 0 && forall k :: 0 <= k < |s| ==> IsDecimal(s[k])
    ensures ParseInt(s) == Some(DecimalValue(s) as int)
  {
    assert !IsSpace(s[0]);
    assert TrimStart(s) == s;
    assert IsDecimal(s[0]);
    DigitPrefixOfDecimals(s);
    if |s| >= 2 {
      assert IsDecimal(s[1]);
    }
    assert ParseMagnitude(s) == ParseDigits(s, 10);
  }

  /** `parseInt('0x' + ab)` for two hexadecimal digits. */
  lemma HexPairParse(a: char, b: char)
    requires IsHex(a) && IsHex(b)
    ensures ParseInt("0x" + [a, b]) == Some(16 * DigitOf(a) + DigitOf(b))
    ensures 0 <= 16 * DigitOf(a) + DigitOf(b) <= 255
  {
    var s := "0x" + [a, b];
    assert TrimStart(s) == s;
    assert ParseSigned(s) == ParseMagnitude(s);
    assert s[2..] == [a, b];
    assert [a, b][1..] == [b];
    assert DigitPrefix([b], 16) == [DigitOf(b)];
    var ds := DigitPrefix([a, b], 16);
    assert ds == [DigitOf(a), DigitOf(b)];
    assert ds[..1] == [DigitOf(a)];
    assert Value(ds[..1], 16) == DigitOf(a);
  }

  // ----------------------------------------------------- array-index keys

  function DecimalDigit(d: nat): char
    requires d < 10
  {
    ('0' as int + d) as char
  }

  /** The property key `for...in` yields for array index `n`. */
  function DecimalString(n: nat): (s: string)
    ensures |s| > 0 && forall k :: 0 <= k < |s| ==> IsDecimal(s[k])
    decreases n
  {
    if n < 10 then [DecimalDigit(n)] else DecimalString(n / 10) + [DecimalDigit(n % 10)]
  }

  /** Reading an index key back gives the index. */
  lemma {:induction false} DecimalRoundTrip(n: nat)
    ensures DecimalValue(DecimalString(n)) == n
    ensures ParseInt(DecimalString(n)) == Some(n)
    decreases n
  {
    var s := DecimalString(n);
    if n >= 10 {
      DecimalRoundTrip(n / 10);
      assert s[..|s| - 1] == DecimalString(n / 10);
    }
    DecimalParse(s);
  }
}
