/** String operations of JavaScript and Python that the frontend and the backend rely on:
    case mapping, substring search, `substring`/`slice`, `parseInt`, number-to-text and
    joining. Strings are sequences of UTF-16 code units (JavaScript) or code points
    (Python); only the Latin-1 range is given a case mapping. */
module Text {
  import opened Wrappers

  /** An optional string as JavaScript tests it: `undefined`, `null` and `""` are false. */
  predicate Truthy(o: Option<string>) {
    o.Some? && o.value != ""
  }

  // ---------------------------------------------------------------- case mapping

  /** `String.prototype.toLowerCase` on one character: ASCII and Latin-1 capitals. */
  function JsLowerChar(c: char): (r: char)
    ensures 'A' <= c <= 'Z' ==> r as int == c as int + 32
    ensures r == c || ('A' <= c <= 'Z') || ('À' <= c <= 'Þ' && c != '×')
  {
    if 'A' <= c <= 'Z' || ('À' <= c <= 'Þ' && c != '×') then
      (c as int + 32) as char
    else c
  }

  /** `String.prototype.toLowerCase`. */
  function JsLower(s: string): (r: string)
    ensures |r| == |s|
    ensures forall i :: 0 <= i < |s| ==> r[i] == JsLowerChar(s[i])
  {
    if s == [] then [] else [JsLowerChar(s[0])] + JsLower(s[1..])
  }

  /** Python `str.upper` on one character: ASCII and Latin-1 small letters that have a
      one-character capital in Latin-1. */
  function PyUpperChar(c: char): (r: char)
    ensures 'a' <= c <= 'z' ==> r as int == c as int - 32
    ensures r == c || ('a' <= c <= 'z') || ('à' <= c <= 'þ' && c != '÷')
  {
    if 'a' <= c <= 'z' || ('à' <= c <= 'þ' && c != '÷') then
      (c as int - 32) as char
    else c
  }

  /** Python `str.upper`. */
  function PyUpper(s: string): (r: string)
    ensures |r| == |s|
    ensures forall i :: 0 <= i < |s| ==> r[i] == PyUpperChar(s[i])
  {
    if s == [] then [] else [PyUpperChar(s[0])] + PyUpper(s[1..])
  }

  /** Lower-casing twice is lower-casing once. */
  lemma JsLowerIdempotent(s: string)
    ensures JsLower(JsLower(s)) == JsLower(s)
  {
    assert forall i :: 0 <= i < |s| ==> JsLowerChar(JsLowerChar(s[i])) == JsLowerChar(s[i]);
  }

  /** Upper-casing twice is upper-casing once. */
  lemma PyUpperIdempotent(s: string)
    ensures PyUpper(PyUpper(s)) == PyUpper(s)
  {
    assert forall i :: 0 <= i < |s| ==> PyUpperChar(PyUpperChar(s[i])) == PyUpperChar(s[i]);
  }

  // ---------------------------------------------------------------- substring search

  predicate IsPrefix(p: string, s: string) {
    |p| <= |s| && s[..|p|] == p
  }

  /** `s.includes(t)` (JavaScript) and `t in s` (Python). */
  function Includes(s: string, t: string): bool {
    IsPrefix(t, s) || (|s| > 0 && Includes(s[1..], t))
  }

  /** An occurrence of `t` at position `i` of `s` makes `Includes(s, t)` true. */
  lemma {:induction false} IncludesFrom(s: string, t: string, i: nat)
    requires i + |t| <= |s| && s[i..i + |t|] == t
    ensures Includes(s, t)
  {
    if i > 0 {
      assert s[1..][i - 1..i - 1 + |t|] == s[i..i + |t|];
      IncludesFrom(s[1..], t, i - 1);
    }
  }

  /** When `Includes(s, t)` holds, `t` occurs at some position of `s`. */
  lemma {:induction false} IncludesWitness(s: string, t: string) returns (i: nat)
    requires Includes(s, t)
    ensures i + |t| <= |s| && s[i..i + |t|] == t
  {
    if IsPrefix(t, s) {
      i := 0;
    } else {
      var j := IncludesWitness(s[1..], t);
      assert s[j + 1..j + 1 + |t|] == s[1..][j..j + |t|];
      i := j + 1;
    }
  }

  predicate OccursAt(s: string, t: string, i: int) {
    0 <= i && i + |t| <= |s| && s[i..i + |t|] == t
  }

  /** `Includes` holds exactly when `t` occurs at some position of `s`. */
  lemma IncludesAt(s: string, t: string)
    ensures Includes(s, t) <==> exists i :: OccursAt(s, t, i)
  {
    if Includes(s, t) {
      var i := IncludesWitness(s, t);
      assert OccursAt(s, t, i);
    }
    if exists i :: OccursAt(s, t, i) {
      var i :| OccursAt(s, t, i);
      IncludesFrom(s, t, i);
    }
  }

  /** Every string contains the empty string and itself. */
  lemma IncludesTrivial(s: string)
    ensures Includes(s, "") && Includes(s, s)
  {
    assert IsPrefix("", s);
    assert IsPrefix(s, s);
  }

  // ---------------------------------------------------------------- slicing

  function Clamp(k: int, n: nat): (r: nat)
    ensures r <= n
    ensures 0 <= k <= n ==> r == k
  {
    if k < 0 then 0 else if k > n then n else k
  }

  /** `s.substring(a, b)`: both bounds are clamped to `[0, |s|]` and swapped when reversed. */
  function JsSubstring(s: string, a: int, b: int): (r: string)
    ensures 0 <= a <= b <= |s| ==> r == s[a..b]
    ensures |r| <= |s|
  {
    var lo := Clamp(a, |s|);
    var hi := Clamp(b, |s|);
    if lo <= hi then s[lo..hi] else s[hi..lo]
  }

  /** `s.slice(-k)` for `k > 0`: the last `k` characters, or all of `s` when it is shorter. */
  function JsSliceLast(s: string, k: nat): (r: string)
    ensures |r| == if |s| < k then |s| else k
    ensures s == s[..|s| - |r|] + r
  {
    if |s| < k then s else s[|s| - k..]
  }

  // ---------------------------------------------------------------- digits

  predicate IsDigit(c: char) { '0' <= c <= '9' }

  function DigitChar(d: nat): (c: char)
    requires d < 10
    ensures IsDigit(c)
  {
    ('0' as int + d) as char
  }

  function DigitValue(c: char): (d: nat)
    requires IsDigit(c)
    ensures d < 10 && DigitChar(d) == c
  {
    c as int - '0' as int
  }

  /** Value of a digit sequence read in base 10, most significant first. */
  function DecimalValue(s: string): nat
    requires forall i :: 0 <= i < |s| ==> IsDigit(s[i])
  {
    if s == [] then 0 else DecimalValue(s[..|s| - 1]) * 10 + DigitValue(s[|s| - 1])
  }

  /** `String(n)` / Python `str(n)` for a natural number. */
  function NatToString(n: nat): (r: string)
    ensures |r| > 0
    ensures forall i :: 0 <= i < |r| ==> IsDigit(r[i])
  {
    if n < 10 then [DigitChar(n)] else NatToString(n / 10) + [DigitChar(n % 10)]
  }

  /** Reading back the decimal text of `n` gives `n`. */
  lemma {:induction false} NatToStringValue(n: nat)
    ensures DecimalValue(NatToString(n)) == n
  {
    if n >= 10 {
      var r := NatToString(n);
      assert r[..|r| - 1] == NatToString(n / 10);
      NatToStringValue(n / 10);
    }
  }

  /** Distinct numbers have distinct decimal texts. */
  lemma NatToStringInjective(m: nat, n: nat)
    requires NatToString(m) == NatToString(n)
    ensures m == n
  {
    NatToStringValue(m);
    NatToStringValue(n);
  }

  /** `String(n)` for an integer of either sign. */
  function IntToString(n: int): (r: string)
    ensures |r| > 0
    ensures n < 0 <==> r[0] == '-'
  {
    if n < 0 then "-" + NatToString(-n) else NatToString(n)
  }

  /** Distinct integers have distinct texts. */
  lemma IntToStringInjective(m: int, n: int)
    requires IntToString(m) == IntToString(n)
    ensures m == n
  {
    if m < 0 {
      assert IntToString(m)[1..] == NatToString(-m);
      assert IntToString(n)[1..] == NatToString(-n);
      NatToStringInjective(-m, -n);
    } else {
      NatToStringInjective(m, n);
    }
  }

  /** A number below 100 as two digits: `String(m).padStart(2, "0")`. */
  function Pad2(m: nat): (r: string)
    ensures |r| >= 2
    ensures forall i :: 0 <= i < |r| ==> IsDigit(r[i])
  {
    if m < 10 then [DigitChar(0)] + NatToString(m) else NatToString(m)
  }

  /** Padding the value of two digits gives the two digits back. */
  lemma Pad2TwoDigits(a: char, b: char)
    requires IsDigit(a) && IsDigit(b)
    ensures Pad2(10 * DigitValue(a) + DigitValue(b)) == [a, b]
  {
    var v := 10 * DigitValue(a) + DigitValue(b);
    if v >= 10 {
      assert v / 10 == DigitValue(a) && v % 10 == DigitValue(b);
      assert NatToString(v) == NatToString(v / 10) + [DigitChar(v % 10)];
      assert NatToString(v / 10) == [a];
    } else {
      assert DigitValue(a) == 0 && v == DigitValue(b);
      assert NatToString(v) == [b];
    }
  }

  // ---------------------------------------------------------------- parseInt

  predicate IsJsSpace(c: char) {
    c == ' ' || c == '\t' || c == '\n' || c == '\r' || c == '\U{000B}' || c == '\U{000C}'
    || c == '\U{00A0}' || c == '\U{FEFF}'
  }

  function TrimStart(s: string): (r: string)
    ensures |r| <= |s| && r == s[|s| - |r|..]
    ensures r == [] || !IsJsSpace(r[0])
  {
    if s != [] && IsJsSpace(s[0]) then TrimStart(s[1..]) else s
  }

  /** Value of `c` as a digit in `radix` (10 or 16), if it is one. */
  function RadixDigit(c: char, radix: nat): Option<nat>
  {
    if '0' <= c <= '9' && c as int - '0' as int < radix then Some(c as int - '0' as int)
    else if radix == 16 && 'a' <= c <= 'f' then Some(c as int - 'a' as int + 10)
    else if radix == 16 && 'A' <= c <= 'F' then Some(c as int - 'A' as int + 10)
    else None
  }

  /** Length of the longest prefix of `s` made of `radix` digits. */
  function DigitRun(s: string, radix: nat): (k: nat)
    ensures k <= |s|
    ensures forall i :: 0 <= i < k ==> RadixDigit(s[i], radix).Some?
    ensures k < |s| ==> RadixDigit(s[k], radix).None?
  {
    if s == [] || RadixDigit(s[0], radix).None? then 0 else 1 + DigitRun(s[1..], radix)
  }

  function RunValue(s: string, radix: nat): nat
    requires forall i :: 0 <= i < |s| ==> RadixDigit(s[i], radix).Some?
  {
    if s == [] then 0 else RunValue(s[..|s| - 1], radix) * radix + RadixDigit(s[|s| - 1], radix).value
  }

  /** The longest run of `radix` digits at the start of `d`, read as a number; `NaN`
      (`None`) when there is no digit. */
  function ParseRun(d: string, radix: nat): Option<nat> {
    var k := DigitRun(d, radix);
    if k == 0 then None else Some(RunValue(d[..k], radix))
  }

  /** An unsigned `parseInt`: a `0x`/`0X` prefix selects base 16, otherwise base 10. */
  function ParseUnsigned(u: string): Option<nat> {
    if |u| >= 2 && u[0] == '0' && (u[1] == 'x' || u[1] == 'X') then ParseRun(u[2..], 16)
    else ParseRun(u, 10)
  }

  /** `parseInt(s)` with no radix: leading white space is skipped, an optional sign is read,
      then the digits as `ParseUnsigned` reads them; no digit at all gives `NaN` (`None`). */
  function ParseInt(s: string): (r: Option<int>)
  {
    var t := TrimStart(s);
    if |t| > 0 && t[0] == '-' then
      match ParseUnsigned(t[1..])
      case None => None
      case Some(v) => Some(-(v as int))
    else if |t| > 0 && t[0] == '+' then ParseUnsigned(t[1..])
    else ParseUnsigned(t)
  }

  /** Base-10 digit runs are read as decimal numbers. */
  lemma {:induction false} RunValueDecimal(s: string)
    requires forall i :: 0 <= i < |s| ==> IsDigit(s[i])
    ensures forall i :: 0 <= i < |s| ==> RadixDigit(s[i], 10) == Some(DigitValue(s[i]))
    ensures RunValue(s, 10) == DecimalValue(s)
  {
    if s != [] {
      RunValueDecimal(s[..|s| - 1]);
    }
  }

  /** `parseInt` of a non-empty run of decimal digits is its decimal value. */
  lemma ParseDecimal(s: string)
    requires |s| > 0 && forall i :: 0 <= i < |s| ==> IsDigit(s[i])
    ensures ParseInt(s) == Some(DecimalValue(s))
  {
    DigitStartIsDecimal(s);
    DigitRunValue(s);
  }

  /** Text starting with two digits (or one digit alone) is read in base 10. */
  lemma DigitStartIsDecimal(s: string)
    requires |s| > 0 && IsDigit(s[0]) && (|s| >= 2 ==> IsDigit(s[1]))
    ensures ParseInt(s) == ParseRun(s, 10)
  {
    NoSpaceToTrim(s);
    NoHexPrefix(s);
  }

  /** Text starting with a digit has no leading white space. */
  lemma NoSpaceToTrim(s: string)
    requires |s| > 0 && IsDigit(s[0])
    ensures TrimStart(s) == s
  {
    assert !IsJsSpace(s[0]);
  }

  /** Text whose second character is a digit has no `0x` prefix. */
  lemma NoHexPrefix(s: string)
    requires |s| >= 2 ==> IsDigit(s[1])
    ensures ParseUnsigned(s) == ParseRun(s, 10)
  {
  }

  /** A text of decimal digits is one run, read as its decimal value. */
  lemma DigitRunValue(s: string)
    requires |s| > 0 && forall i :: 0 <= i < |s| ==> IsDigit(s[i])
    ensures ParseRun(s, 10) == Some(DecimalValue(s))
  {
    RunValueDecimal(s);
    WholeDigitRun(s);
    assert s[..|s|] == s;
  }

  /** A text made only of decimal digits is a single run. */
  lemma {:induction false} WholeDigitRun(s: string)
    requires forall i :: 0 <= i < |s| ==> IsDigit(s[i])
    ensures DigitRun(s, 10) == |s|
  {
    if s != [] {
      WholeDigitRun(s[1..]);
    }
  }

  /** `parseInt` of two decimal digits is their two-digit value. */
  lemma ParseTwoDigits(a: char, b: char)
    requires IsDigit(a) && IsDigit(b)
    ensures ParseInt([a, b]) == Some(10 * DigitValue(a) + DigitValue(b))
  {
    ParseDecimal([a, b]);
    assert DecimalValue([a, b]) == 10 * DigitValue(a) + DigitValue(b) by {
      assert [a, b][..1] == [a];
      assert [a][..0] == [];
      assert DecimalValue([a]) == DigitValue(a);
    }
  }

  /** `parseInt` of text with no digit after the optional sign is `NaN`. */
  lemma ParseIntNoDigit(s: string)
    requires |s| > 0 && !IsJsSpace(s[0]) && !IsDigit(s[0]) && s[0] != '-' && s[0] != '+'
    ensures ParseInt(s) == None
  {
    assert TrimStart(s) == s;
  }

  // ---------------------------------------------------------------- joining

  /** `parts.join(sep)`. */
  function Join(parts: seq<string>, sep: string): (r: string)
    ensures parts == [] ==> r == ""
    ensures |parts| == 1 ==> r == parts[0]
  {
    if parts == [] then ""
    else if |parts| == 1 then parts[0]
    else Join(parts[..|parts| - 1], sep) + sep + parts[|parts| - 1]
  }

  /** Two parts are joined with one separator between them. */
  lemma JoinTwo(a: string, b: string, sep: string)
    ensures Join([a, b], sep) == a + sep + b
  {
    assert [a, b][..1] == [a];
  }
}
