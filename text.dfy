/** The Python string operations the turn logic relies on: `str.lower()`,
    the substring test `p in s`, `str.find`, `str.strip()`, `str.split(sep)[1]`,
    `"sep".join(...)`, decimal formatting of an `int` and `int()` of a digit run. */
module Text {
  import opened Types

  // ----- Case -----

  function LowerChar(c: char): char {
    if 'A' <= c <= 'Z' then (c as int - 'A' as int + 'a' as int) as char else c
  }

  /** `s.lower()`, restricted to ASCII letters. */
  function Lower(s: string): (r: string)
    ensures |r| == |s|
    ensures forall i :: 0 <= i < |s| ==> r[i] == LowerChar(s[i])
  {
    if s == [] then [] else [LowerChar(s[0])] + Lower(s[1..])
  }

  lemma LowerIdempotent(s: string)
    ensures Lower(Lower(s)) == Lower(s)
  {
  }

  lemma LowerAppend(a: string, b: string)
    ensures Lower(a + b) == Lower(a) + Lower(b)
  {
  }

  // ----- Substrings -----

  /** `p` occurs in `s` starting at index `i`. */
  predicate OccursAt(s: string, p: string, i: int) {
    0 <= i && i + |p| <= |s| && s[i..i + |p|] == p
  }

  lemma OccursShift(s: string, p: string, k: int)
    requires |s| > 0 && 0 <= k
    ensures OccursAt(s[1..], p, k) <==> OccursAt(s, p, k + 1)
  {
    if k + |p| <= |s| - 1 {
      assert s[1..][k..k + |p|] == s[k + 1..k + 1 + |p|];
    }
  }

  /** `s.find(p)`: the first index at which `p` occurs in `s`, if any. */
  function IndexOf(s: string, p: string): (r: Option<nat>)
    ensures r.Some? ==> OccursAt(s, p, r.value)
    ensures r.Some? ==> forall j :: 0 <= j < r.value ==> !OccursAt(s, p, j)
    ensures r.None? ==> forall j :: !OccursAt(s, p, j)
    decreases |s|
  {
    if |p| > |s| then None
    else if p <= s then Some(0)
    else
      match IndexOf(s[1..], p)
      case None =>
        assert forall j :: !OccursAt(s, p, j) by {
          forall j ensures !OccursAt(s, p, j) {
            if j > 0 { OccursShift(s, p, j - 1); }
          }
        }
        None
      case Some(k) =>
        assert forall j :: 0 <= j < k + 1 ==> !OccursAt(s, p, j) by {
          forall j | 0 <= j < k + 1 ensures !OccursAt(s, p, j) {
            if j > 0 { OccursShift(s, p, j - 1); }
          }
        }
        OccursShift(s, p, k);
        Some(k + 1)
  }

  /** Python's `p in s`. */
  predicate Contains(s: string, p: string) {
    IndexOf(s, p).Some?
  }

  lemma ContainsIff(s: string, p: string)
    ensures Contains(s, p) <==> exists i :: OccursAt(s, p, i)
  {
  }

  lemma ContainsEmpty(s: string)
    ensures Contains(s, "")
  {
    assert OccursAt(s, "", 0);
  }

  /** Whatever surrounds an occurrence does not hide it. */
  lemma ContainsWithin(a: string, p: string, b: string)
    ensures Contains(a + p + b, p)
  {
    assert (a + p + b)[|a|..|a| + |p|] == p;
    assert OccursAt(a + p + b, p, |a|);
  }

  lemma ContainsExtend(a: string, s: string, b: string, p: string)
    requires Contains(s, p)
    ensures Contains(a + s + b, p)
  {
    var i := IndexOf(s, p).value;
    assert (a + s + b)[|a| + i..|a| + i + |p|] == s[i..i + |p|];
    assert OccursAt(a + s + b, p, |a| + i);
  }

  /** Appending text keeps an occurrence. */
  lemma ContainsAppend(s: string, b: string, p: string)
    requires Contains(s, p)
    ensures Contains(s + b, p)
  {
    ContainsExtend("", s, b, p);
    assert "" + s + b == s + b;
  }

  /** Python's `any(p in s for p in ps)`. */
  predicate ContainsAny(s: string, ps: seq<string>) {
    exists k :: 0 <= k < |ps| && Contains(s, ps[k])
  }

  /** The position of the first element of `ps` that occurs in `s`, or `|ps|`:
      a `for p in ps: if p in s: ...; break` loop. */
  function FirstContained(s: string, ps: seq<string>): (k: nat)
    ensures k <= |ps|
    ensures k < |ps| ==> Contains(s, ps[k])
    ensures forall j :: 0 <= j < k ==> !Contains(s, ps[j])
  {
    if ps == [] then 0
    else if Contains(s, ps[0]) then 0
    else 1 + FirstContained(s, ps[1..])
  }

  lemma FirstContainedAny(s: string, ps: seq<string>)
    ensures FirstContained(s, ps) < |ps| <==> ContainsAny(s, ps)
  {
  }

  // ----- Whitespace and splitting -----

  /** ASCII whitespace as `str.strip()` sees it (`\t \n \v \f \r`, `\x1c`-`\x1f`, space). */
  predicate IsSpace(c: char) {
    ('\U{0009}' <= c <= '\U{000D}') || ('\U{001C}' <= c <= '\U{0020}')
  }

  function TrimLeft(s: string): (r: string)
    ensures |r| <= |s| && r == s[|s| - |r|..]
    ensures r != [] ==> !IsSpace(r[0])
    ensures s != [] && !IsSpace(s[0]) ==> r == s
  {
    if s != [] && IsSpace(s[0]) then TrimLeft(s[1..]) else s
  }

  function TrimRight(s: string): (r: string)
    ensures |r| <= |s| && r == s[..|r|]
    ensures r != [] ==> !IsSpace(r[|r| - 1])
    ensures s != [] && !IsSpace(s[|s| - 1]) ==> r == s
  {
    if s != [] && IsSpace(s[|s| - 1]) then TrimRight(s[..|s| - 1]) else s
  }

  /** `s.strip()`. */
  function Strip(s: string): string {
    TrimRight(TrimLeft(s))
  }

  lemma StripUnpadded(s: string)
    requires s != [] && !IsSpace(s[0]) && !IsSpace(s[|s| - 1])
    ensures Strip(s) == s
  {
  }

  /** `s.split(sep)[1]`: the text after the first `sep`, up to the next `sep`. */
  function SecondField(s: string, sep: string): (r: string)
    requires sep != [] && Contains(s, sep)
  {
    var i := IndexOf(s, sep).value;
    var rest := s[i + |sep|..];
    match IndexOf(rest, sep)
    case None => rest
    case Some(j) => rest[..j]
  }

  lemma SecondFieldOfPrefixed(sep: string, x: string)
    requires sep != [] && !Contains(x, sep)
    ensures Contains(sep + x, sep) && SecondField(sep + x, sep) == x
  {
    assert (sep + x)[..|sep|] == sep;
    assert OccursAt(sep + x, sep, 0);
    assert (sep + x)[|sep|..] == x;
  }

  // ----- Joining -----

  /** `sep.join(parts)`. */
  function Join(sep: string, parts: seq<string>): string {
    if parts == [] then ""
    else if |parts| == 1 then parts[0]
    else Join(sep, parts[..|parts| - 1]) + sep + parts[|parts| - 1]
  }

  /** Every part of a joined sequence occurs in it. */
  lemma {:induction false} JoinContainsPart(sep: string, parts: seq<string>, k: nat)
    requires k < |parts|
    ensures Contains(Join(sep, parts), parts[k])
  {
    var n := |parts| - 1;
    if n == 0 {
      ContainsWithin("", parts[0], "");
      assert "" + parts[0] + "" == parts[0];
    } else if k == n {
      ContainsWithin(Join(sep, parts[..n]) + sep, parts[k], "");
      assert Join(sep, parts[..n]) + sep + parts[k] + "" == Join(sep, parts);
    } else {
      assert parts[..n][k] == parts[k];
      JoinContainsPart(sep, parts[..n], k);
      ContainsExtend("", Join(sep, parts[..n]), sep + parts[n], parts[k]);
      assert "" + Join(sep, parts[..n]) + (sep + parts[n]) == Join(sep, parts);
    }
  }

  // ----- Decimal numbers -----

  predicate IsDigit(c: char) {
    '0' <= c <= '9'
  }

  predicate AllDigits(s: string) {
    forall i :: 0 <= i < |s| ==> IsDigit(s[i])
  }

  function DigitChar(d: nat): (c: char)
    requires d < 10
    ensures IsDigit(c)
  {
    ('0' as int + d) as char
  }

  /** `str(n)` for a non-negative `n`. */
  function NatToString(n: nat): (r: string)
    ensures r != [] && AllDigits(r)
  {
    if n < 10 then [DigitChar(n)] else NatToString(n / 10) + [DigitChar(n % 10)]
  }

  /** `int(s)` for a run of decimal digits. */
  function DigitsValue(s: string): nat
    requires AllDigits(s)
  {
    if s == [] then 0 else DigitsValue(s[..|s| - 1]) * 10 + (s[|s| - 1] as int - '0' as int)
  }

  /** Formatting a number and reading it back gives the number. */
  lemma {:induction false} DigitsValueOfNatToString(n: nat)
    ensures DigitsValue(NatToString(n)) == n
  {
    var s := NatToString(n);
    if n >= 10 {
      DigitsValueOfNatToString(n / 10);
      assert s[..|s| - 1] == NatToString(n / 10);
    }
  }
}
