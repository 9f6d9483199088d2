/** String primitives of the JavaScript runtime that the business rules rely
    on: `toLowerCase`, `includes`, the `/\d+/` regular expression, `parseInt`,
    `Number.prototype.toString`, `trim`, `join`, `split` and `charAt`. A
    character here is a Unicode code point, where JavaScript counts UTF-16
    code units; the rules only inspect ASCII digits, letters, commas and
    white space, so surrogate pairs do not change their outcome. */
module Text {
  import opened Wrappers

  // ---------------------------------------------------------------------------
  // Characters
  // ---------------------------------------------------------------------------

  /** `\d` in a regular expression without the `u` flag: the ASCII digits. */
  predicate IsDigit(c: char) {
    '0' <= c <= '9'
  }

  predicate AllDigits(s: string) {
    forall k :: 0 <= k < |s| ==> IsDigit(s[k])
  }

  function DigitValue(c: char): (d: nat)
    requires IsDigit(c)
    ensures d < 10
  {
    c as int - '0' as int
  }

  function DigitChar(d: nat): (c: char)
    requires d < 10
    ensures IsDigit(c) && DigitValue(c) == d
  {
    ('0' as int + d) as char
  }

  predicate IsUpper(c: char) {
    'A' <= c <= 'Z'
  }

  predicate IsLower(c: char) {
    'a' <= c <= 'z'
  }

  /** Lower-casing of one character (ASCII letters only). */
  function LowerChar(c: char): (r: char)
    ensures !IsUpper(r)
    ensures IsUpper(c) ==> IsLower(r) && r as int == c as int + 32
    ensures !IsUpper(c) ==> r == c
  {
    if IsUpper(c) then (c as int + 32) as char else c
  }

  /** Upper-casing of one character (ASCII letters only). */
  function UpperChar(c: char): (r: char)
    ensures !IsLower(r)
    ensures IsLower(c) ==> IsUpper(r) && r as int + 32 == c as int
    ensures !IsLower(c) ==> r == c
  {
    if IsLower(c) then (c as int - 32) as char else c
  }

  /** `String.prototype.toLowerCase`, restricted to ASCII letters. */
  function ToLower(s: string): (r: string)
    ensures |r| == |s|
    ensures forall k :: 0 <= k < |s| ==> r[k] == LowerChar(s[k])
    ensures forall k :: 0 <= k < |r| ==> !IsUpper(r[k])
  {
    seq(|s|, (k: int) requires 0 <= k < |s| => LowerChar(s[k]))
  }

  /** The characters `String.prototype.trim` removes: WhiteSpace and
      LineTerminator of the ECMAScript grammar. */
  predicate IsJsSpace(c: char) {
    || c == '\t' || c == '\n' || c == '\U{000B}' || c == '\U{000C}' || c == '\r'
    || c == ' ' || c == '\U{00A0}' || c == '\U{1680}'
    || ('\U{2000}' <= c <= '\U{200A}')
    || c == '\U{2028}' || c == '\U{2029}' || c == '\U{202F}' || c == '\U{205F}'
    || c == '\U{3000}' || c == '\U{FEFF}'
  }

  // ---------------------------------------------------------------------------
  // Substring search: String.prototype.includes
  // ---------------------------------------------------------------------------

  /** `sub` occurs in `s` starting at position `k`. */
  predicate OccursAt(s: string, sub: string, k: nat) {
    k + |sub| <= |s| && s[k..k + |sub|] == sub
  }

  /** `s.includes(sub)`: `sub` occurs in `s` at some position. Every text
      includes the empty string, and none includes a longer one. */
  predicate Contains(s: string, sub: string)
    ensures sub == [] ==> Contains(s, sub)
    ensures Contains(s, sub) ==> |sub| <= |s|
  {
    assert OccursAt(s, [], 0);
    exists k: nat :: k <= |s| - |sub| && OccursAt(s, sub, k)
  }

  /** An occurrence in `a` is one in `a + b`, at the same position. */
  lemma OccursExtend(a: string, b: string, sub: string, k: nat)
    requires OccursAt(a, sub, k)
    ensures OccursAt(a + b, sub, k)
  {
    assert (a + b)[k..k + |sub|] == a[k..k + |sub|];
  }

  /** An occurrence in `b` is one in `a + b`, `|a|` further on. */
  lemma OccursShift(a: string, b: string, sub: string, k: nat)
    requires OccursAt(b, sub, k)
    ensures OccursAt(a + b, sub, |a| + k)
  {
    assert (a + b)[|a| + k..|a| + k + |sub|] == b[k..k + |sub|];
  }

  /** Two pieces of a six-piece text: the second lies right after the first,
      and the fifth occurs in it. */
  lemma SixPieces(a: string, b: string, c: string, d: string, e: string, f: string)
    ensures OccursAt(a + b + c + d + e + f, b, |a|)
    ensures Contains(a + b + c + d + e + f, e)
  {
    assert OccursAt(b, b, 0) && OccursAt(e, e, 0);
    OccursShift(a, b, b, 0);
    OccursExtend(a + b, c, b, |a|);
    OccursExtend(a + b + c, d, b, |a|);
    OccursExtend(a + b + c + d, e, b, |a|);
    OccursExtend(a + b + c + d + e, f, b, |a|);
    OccursShift(a + b + c + d, e, e, 0);
    OccursExtend(a + b + c + d + e, f, e, |a + b + c + d|);
    ContainsAt(a + b + c + d + e + f, e, |a + b + c + d|);
  }

  /** What occurs in the fourth piece of a six-piece text occurs in the text. */
  lemma FourthOfSix(a: string, b: string, c: string, d: string, e: string, f: string, sub: string, k: nat)
    requires OccursAt(d, sub, k)
    ensures Contains(a + b + c + d + e + f, sub)
  {
    OccursShift(a + b + c, d, sub, k);
    OccursExtend(a + b + c + d, e, sub, |a + b + c| + k);
    OccursExtend(a + b + c + d + e, f, sub, |a + b + c| + k);
    ContainsAt(a + b + c + d + e + f, sub, |a + b + c| + k);
  }

  /** An occurrence in `b` is an occurrence in `a + b + c`, `|a|` further on. */
  lemma OccursInMiddle(a: string, b: string, c: string, sub: string, k: nat)
    requires OccursAt(b, sub, k)
    ensures OccursAt(a + b + c, sub, |a| + k)
  {
    var s := a + b + c;
    assert s[|a| + k..|a| + k + |sub|] == b[k..k + |sub|];
  }

  /** `sub` occurs in `s` at position `k`. */
  lemma ContainsAt(s: string, sub: string, k: nat)
    requires OccursAt(s, sub, k)
    ensures Contains(s, sub)
  {
  }

  /** A text without some character of `sub` does not contain `sub`. */
  lemma NotContainsMissingChar(s: string, sub: string, c: char)
    requires c in sub && c !in s
    ensures !Contains(s, sub)
  {
    var j :| 0 <= j < |sub| && sub[j] == c;
    forall k: nat | k <= |s| - |sub| ensures !OccursAt(s, sub, k) {
      assert s[k..k + |sub|][j] == s[k + j];
      assert s[k + j] in s;
    }
  }

  // ---------------------------------------------------------------------------
  // Digit runs: the regular expression /(\d+)/ and parseInt
  // ---------------------------------------------------------------------------

  /** The first position at or after `i` that holds a digit (`|s|` if none). */
  function FirstDigitFrom(s: string, i: nat): (j: nat)
    requires i <= |s|
    decreases |s| - i
    ensures i <= j <= |s|
    ensures j < |s| ==> IsDigit(s[j])
    ensures forall k :: i <= k < j ==> !IsDigit(s[k])
  {
    if i == |s| || IsDigit(s[i]) then i else FirstDigitFrom(s, i + 1)
  }

  /** The end of the maximal digit run that starts at `i`. */
  function DigitRunEnd(s: string, i: nat): (j: nat)
    requires i <= |s|
    decreases |s| - i
    ensures i <= j <= |s|
    ensures forall k :: i <= k < j ==> IsDigit(s[k])
    ensures j == |s| || !IsDigit(s[j])
  {
    if i < |s| && IsDigit(s[i]) then DigitRunEnd(s, i + 1) else i
  }

  /** `v` is the leftmost maximal run of digits in `s`, and it starts at `i`. */
  predicate LeftmostDigitRunAt(s: string, i: nat, v: string) {
    && i + |v| <= |s| && |v| > 0
    && s[i..i + |v|] == v && AllDigits(v)
    && (forall p :: 0 <= p < i ==> !IsDigit(s[p]))
    && (i + |v| == |s| || !IsDigit(s[i + |v|]))
  }

  /** The digit run that starts at `i` ends wherever the digits stop. */
  lemma {:induction false} DigitRunEndAt(s: string, i: nat, e: nat)
    requires i <= e <= |s|
    requires forall k :: i <= k < e ==> IsDigit(s[k])
    requires e == |s| || !IsDigit(s[e])
    ensures DigitRunEnd(s, i) == e
    decreases e - i
  {
    if i < e {
      DigitRunEndAt(s, i + 1, e);
    }
  }

  /** The first digit is wherever the non-digits stop. */
  lemma {:induction false} FirstDigitFromAt(s: string, i: nat, f: nat)
    requires i <= f <= |s|
    requires forall k :: i <= k < f ==> !IsDigit(s[k])
    requires f == |s| || IsDigit(s[f])
    ensures FirstDigitFrom(s, i) == f
    decreases f - i
  {
    if i < f {
      FirstDigitFromAt(s, i + 1, f);
    }
  }

  /** A string has at most one leftmost maximal digit run. */
  lemma LeftmostDigitRunUnique(s: string, i: nat, v: string, i': nat, v': string)
    requires LeftmostDigitRunAt(s, i, v) && LeftmostDigitRunAt(s, i', v')
    ensures i == i' && v == v'
  {
    forall k | i <= k < i + |v| ensures IsDigit(s[k]) {
      assert s[k] == s[i..i + |v|][k - i];
    }
    forall k | i' <= k < i' + |v'| ensures IsDigit(s[k]) {
      assert s[k] == s[i'..i' + |v'|][k - i'];
    }
    FirstDigitFromAt(s, 0, i);
    FirstDigitFromAt(s, 0, i');
    DigitRunEndAt(s, i, i + |v|);
    DigitRunEndAt(s, i', i' + |v'|);
  }

  /** What `s.match(/(\d+)/)` captures: the leftmost maximal run of digits. */
  function FirstDigitRun(s: string): (r: Option<string>)
    ensures r.None? <==> forall k :: 0 <= k < |s| ==> !IsDigit(s[k])
    ensures r.Some? ==> exists i :: LeftmostDigitRunAt(s, i, r.value)
    ensures r.Some? ==> |r.value| > 0 && AllDigits(r.value)
  {
    var i := FirstDigitFrom(s, 0);
    if i == |s| then
      None
    else
      var v := s[i..DigitRunEnd(s, i)];
      assert LeftmostDigitRunAt(s, i, v);
      Some(v)
  }

  /** The number a string of decimal digits denotes. */
  function DigitsValue(ds: string): nat
    requires AllDigits(ds)
  {
    if ds == [] then 0 else DigitsValue(ds[..|ds| - 1]) * 10 + DigitValue(ds[|ds| - 1])
  }

  /** `parseInt(s)` for strings that start with a digit; `None` stands for NaN. */
  function ParseInt(s: string): (r: Option<nat>)
    ensures r.None? <==> |s| == 0 || !IsDigit(s[0])
    ensures AllDigits(s) && |s| > 0 ==> r == Some(DigitsValue(s))
  {
    if |s| > 0 && IsDigit(s[0]) then
      var j := DigitRunEnd(s, 0);
      assert AllDigits(s) ==> j == |s| && s[..j] == s;
      Some(DigitsValue(s[..j]))
    else
      None
  }

  /** `n.toString()`: the canonical decimal rendering, which reads back as `n`. */
  function NatToString(n: nat): (s: string)
    ensures |s| > 0 && AllDigits(s)
    ensures |s| == 1 || s[0] != '0'
    ensures DigitsValue(s) == n
  {
    if n < 10 then
      [DigitChar(n)]
    else
      var prefix := NatToString(n / 10);
      var s := prefix + [DigitChar(n % 10)];
      assert s[..|s| - 1] == prefix;
      s
  }

  /** A rendered number is read back by `parseInt` as the same number. */
  lemma ParseIntOfNatToString(n: nat)
    ensures ParseInt(NatToString(n)) == Some(n)
  {
  }

  /** Two distinct numbers never render alike. */
  lemma NatToStringInjective(m: nat, n: nat)
    requires NatToString(m) == NatToString(n)
    ensures m == n
  {
    ParseIntOfNatToString(m);
    ParseIntOfNatToString(n);
  }

  // ---------------------------------------------------------------------------
  // trim, join, split(',')[0], charAt(0).toUpperCase() + slice(1)
  // ---------------------------------------------------------------------------

  function TrimStartIndex(s: string, i: nat): (j: nat)
    requires i <= |s|
    decreases |s| - i
    ensures i <= j <= |s|
    ensures forall k :: i <= k < j ==> IsJsSpace(s[k])
    ensures j == |s| || !IsJsSpace(s[j])
  {
    if i < |s| && IsJsSpace(s[i]) then TrimStartIndex(s, i + 1) else i
  }

  function TrimEndIndex(s: string, j: nat, lo: nat): (e: nat)
    requires lo <= j <= |s|
    decreases j
    ensures lo <= e <= j
    ensures forall k :: e <= k < j ==> IsJsSpace(s[k])
    ensures e == lo || !IsJsSpace(s[e - 1])
  {
    if j > lo && IsJsSpace(s[j - 1]) then TrimEndIndex(s, j - 1, lo) else j
  }

  /** `s.trim()`: `s` without its leading and trailing white space. */
  function Trim(s: string): (r: string)
    ensures exists i, j ::
              && 0 <= i <= j <= |s| && r == s[i..j]
              && (forall p :: 0 <= p < i ==> IsJsSpace(s[p]))
              && (forall q :: j <= q < |s| ==> IsJsSpace(s[q]))
    ensures r != [] ==> !IsJsSpace(r[0]) && !IsJsSpace(r[|r| - 1])
    ensures r == [] <==> forall k :: 0 <= k < |s| ==> IsJsSpace(s[k])
  {
    var i := TrimStartIndex(s, 0);
    var j := TrimEndIndex(s, |s|, i);
    assert i < j ==> s[i..j][0] == s[i] && s[i..j][j - i - 1] == s[j - 1];
    s[i..j]
  }

  /** The position at which part `i` starts in `Join(parts, sep)`: the
      lengths of the parts before it, each with one separator. */
  function JoinOffset(parts: seq<string>, sep: string, i: nat): nat
    requires i <= |parts|
  {
    if i == 0 then 0 else |parts[0]| + |sep| + JoinOffset(parts[1..], sep, i - 1)
  }

  /** `parts.join(sep)`: the parts in order, one separator between each two
      neighbours and nothing else. */
  function Join(parts: seq<string>, sep: string): (r: string)
    ensures parts == [] ==> r == ""
    ensures parts != [] ==> |r| + |sep| == JoinOffset(parts, sep, |parts|)
    ensures forall i {:trigger JoinOffset(parts, sep, i)} :: 0 <= i < |parts| ==>
              OccursAt(r, parts[i], JoinOffset(parts, sep, i))
    ensures forall i {:trigger JoinOffset(parts, sep, i)} :: 0 <= i < |parts| - 1 ==>
              OccursAt(r, sep, JoinOffset(parts, sep, i) + |parts[i]|)
  {
    if |parts| == 0 then ""
    else if |parts| == 1 then
      assert OccursAt(parts[0], parts[0], 0);
      parts[0]
    else
      var rest := Join(parts[1..], sep);
      JoinConsParts(parts, sep, rest);
      JoinConsSeparators(parts, sep, rest);
      parts[0] + sep + rest
  }

  /** Where the parts of a join of two or more parts lie, from where they lie
      in the join of all but the first. */
  lemma JoinConsParts(parts: seq<string>, sep: string, rest: string)
    requires |parts| >= 2
    requires forall i {:trigger JoinOffset(parts[1..], sep, i)} :: 0 <= i < |parts| - 1 ==>
               OccursAt(rest, parts[1..][i], JoinOffset(parts[1..], sep, i))
    ensures forall i {:trigger JoinOffset(parts, sep, i)} :: 0 <= i < |parts| ==>
              OccursAt(parts[0] + sep + rest, parts[i], JoinOffset(parts, sep, i))
  {
    var head := parts[0] + sep;
    var r := head + rest;
    assert head + rest + "" == r;
    assert OccursAt(r, parts[0], 0) by {
      assert r[..|parts[0]|] == parts[0];
    }
    forall i | 1 <= i < |parts| ensures OccursAt(r, parts[i], JoinOffset(parts, sep, i)) {
      assert parts[1..][i - 1] == parts[i];
      OccursInMiddle(head, rest, "", parts[i], JoinOffset(parts[1..], sep, i - 1));
    }
  }

  /** Where the separators of a join of two or more parts lie, from where
      they lie in the join of all but the first. */
  lemma JoinConsSeparators(parts: seq<string>, sep: string, rest: string)
    requires |parts| >= 2
    requires forall i {:trigger JoinOffset(parts[1..], sep, i)} :: 0 <= i < |parts| - 2 ==>
               OccursAt(rest, sep, JoinOffset(parts[1..], sep, i) + |parts[1..][i]|)
    ensures forall i {:trigger JoinOffset(parts, sep, i)} :: 0 <= i < |parts| - 1 ==>
              OccursAt(parts[0] + sep + rest, sep, JoinOffset(parts, sep, i) + |parts[i]|)
  {
    var head := parts[0] + sep;
    var r := head + rest;
    assert head + rest + "" == r;
    assert OccursAt(r, sep, |parts[0]|) by {
      assert r[|parts[0]|..|parts[0]| + |sep|] == sep;
    }
    forall i | 1 <= i < |parts| - 1 ensures OccursAt(r, sep, JoinOffset(parts, sep, i) + |parts[i]|) {
      assert parts[1..][i - 1] == parts[i];
      OccursInMiddle(head, rest, "", sep, JoinOffset(parts[1..], sep, i - 1) + |parts[i]|);
    }
  }

  /** A join placed between two texts still contains each of its parts. */
  lemma JoinPartInside(a: string, parts: seq<string>, sep: string, c: string, i: nat)
    requires i < |parts|
    ensures Contains(a + Join(parts, sep) + c, parts[i])
  {
    var j := Join(parts, sep);
    var k := JoinOffset(parts, sep, i);
    assert OccursAt(j, parts[i], k);
    OccursInMiddle(a, j, c, parts[i], k);
    ContainsAt(a + j + c, parts[i], |a| + k);
  }

  /** `s.split(',')[0]`: everything before the first comma. */
  function BeforeFirstComma(s: string): (r: string)
    ensures |r| <= |s| && r == s[..|r|]
    ensures ',' !in r
    ensures |r| < |s| ==> s[|r|] == ','
  {
    if s == [] || s[0] == ',' then "" else [s[0]] + BeforeFirstComma(s[1..])
  }

  /** `s.charAt(0).toUpperCase() + s.slice(1)` (ASCII letters only). */
  function Capitalize(s: string): (r: string)
    ensures |r| == |s|
    ensures |s| > 0 ==> r[0] == UpperChar(s[0]) && r[1..] == s[1..]
  {
    if s == [] then "" else [UpperChar(s[0])] + s[1..]
  }

  // ---------------------------------------------------------------------------
  // Ordering of strings (ORDER BY on a varchar column, by character code)
  // ---------------------------------------------------------------------------

  /** `a` sorts no later than `b` in lexicographic character-code order. */
  predicate StrLe(a: string, b: string) {
    a == [] || (b != [] && (a[0] < b[0] || (a[0] == b[0] && StrLe(a[1..], b[1..]))))
  }

  lemma {:induction false} StrLeTotal(a: string, b: string)
    ensures StrLe(a, b) || StrLe(b, a)
  {
    if a != [] && b != [] && a[0] == b[0] {
      StrLeTotal(a[1..], b[1..]);
    }
  }

  lemma {:induction false} StrLeTransitive(a: string, b: string, c: string)
    requires StrLe(a, b) && StrLe(b, c)
    ensures StrLe(a, c)
  {
    if a != [] && b != [] && c != [] && a[0] == b[0] && b[0] == c[0] {
      StrLeTransitive(a[1..], b[1..], c[1..]);
    }
  }
}
