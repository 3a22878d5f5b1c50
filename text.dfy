/** String helpers standing in for the JavaScript string operations the
    components use: `toLowerCase`, `toUpperCase`, `startsWith`, `includes`,
    `trim`, `split` and `Number.prototype.toString`. Case mapping is the
    ASCII one. */
module Text {

  /** `String.prototype.toLowerCase` on one character (ASCII letters only). */
  function LowerChar(c: char): char {
    if 'A' <= c <= 'Z' then (c as int + 32) as char else c
  }

  /** `String.prototype.toUpperCase` on one character (ASCII letters only). */
  function UpperChar(c: char): char {
    if 'a' <= c <= 'z' then (c as int - 32) as char else c
  }

  /** `s.toLowerCase()`: same length, every character mapped. */
  function Lower(s: string): (r: string)
    ensures |r| == |s|
    ensures forall i :: 0 <= i < |s| ==> r[i] == LowerChar(s[i])
  {
    if s == [] then [] else [LowerChar(s[0])] + Lower(s[1..])
  }

  /** Lower-casing is idempotent: the reason a case-insensitive match can
      compare `Lower(a)` with `Lower(b)` without caring which was lowered. */
  lemma LowerIdempotent(s: string)
    ensures Lower(Lower(s)) == Lower(s)
  {
    var l := Lower(s);
    assert forall i :: 0 <= i < |s| ==> LowerChar(l[i]) == l[i];
  }

  /** `s.startsWith(p)`. */
  predicate StartsWith(s: string, p: string) {
    |p| <= |s| && s[..|p|] == p
  }

  /** `s.includes(sub)`: some suffix of `s` starts with `sub`. */
  predicate Contains(s: string, sub: string)
    decreases |s|
  {
    StartsWith(s, sub) || (|s| > 0 && Contains(s[1..], sub))
  }

  /** `sub` occurs in `s` starting at offset `k`. */
  predicate OccursAt(s: string, sub: string, k: int) {
    0 <= k && k + |sub| <= |s| && s[k..k + |sub|] == sub
  }

  /** The recursive `Contains` agrees with the positional definition of a
      substring: `sub` occurs in `s` at some offset. */
  lemma {:induction false} ContainsAt(s: string, sub: string)
    ensures Contains(s, sub) <==> exists k :: OccursAt(s, sub, k)
    decreases |s|
  {
    if Contains(s, sub) {
      if StartsWith(s, sub) {
        assert OccursAt(s, sub, 0);
      } else {
        ContainsAt(s[1..], sub);
        var k :| OccursAt(s[1..], sub, k);
        assert s[k + 1..k + 1 + |sub|] == s[1..][k..k + |sub|];
        assert OccursAt(s, sub, k + 1);
      }
    }
    if exists k :: OccursAt(s, sub, k) {
      var k :| OccursAt(s, sub, k);
      if k == 0 {
        assert StartsWith(s, sub);
      } else {
        assert s[1..][k - 1..k - 1 + |sub|] == s[k..k + |sub|];
        assert OccursAt(s[1..], sub, k - 1);
        ContainsAt(s[1..], sub);
      }
    }
  }

  /** Every string contains the empty string: an empty search box matches. */
  lemma ContainsEmpty(s: string)
    ensures Contains(s, "")
  {
    assert StartsWith(s, "");
  }

  /** A string contains itself. */
  lemma ContainsSelf(s: string)
    ensures Contains(s, s)
  {
    assert s[..|s|] == s;
  }

  /** What `trim()` removes: the ECMAScript white-space and line-terminator
      characters of the ASCII range plus no-break space and BOM. */
  predicate IsSpace(c: char) {
    c == ' ' || c == '\t' || c == '\n' || c == '\r' || c == '\U{000B}' || c == '\U{000C}'
    || c == '\U{00A0}' || c == '\U{FEFF}'
  }

  /** `!s.trim()`: the trimmed string is empty exactly when every character
      is white space. */
  predicate IsBlank(s: string) {
    forall i :: 0 <= i < |s| ==> IsSpace(s[i])
  }

  /** `s.charAt(0).toUpperCase() + s.slice(1)`. */
  function Capitalize(s: string): (r: string)
    ensures |r| == |s|
    ensures |s| > 0 ==> r[0] == UpperChar(s[0]) && r[1..] == s[1..]
  {
    if s == [] then [] else [UpperChar(s[0])] + s[1..]
  }

  /** Capitalizing changes the case of the first character only: the
      label and the status it was made from are equal up to case. */
  lemma CapitalizeSameUpToCase(s: string)
    ensures Lower(Capitalize(s)) == Lower(s)
  {
    if s != [] {
      var c := s[0];
      assert LowerChar(UpperChar(c)) == LowerChar(c);
      assert Lower(Capitalize(s))[0] == Lower(s)[0];
      assert Lower(Capitalize(s))[1..] == Lower(s)[1..];
    }
  }

  // ---------------------------------------------------------------------
  // Decimal rendering of non-negative integers (`n.toString()`)

  function DigitChar(d: nat): (c: char)
    requires d < 10
    ensures '0' <= c <= '9'
  {
    ('0' as int + d) as char
  }

  predicate IsDigit(c: char) {
    '0' <= c <= '9'
  }

  /** `n.toString()` for a non-negative integer: the shortest decimal
      numeral, most significant digit first. */
  function NatToString(n: nat): (r: string)
    ensures |r| > 0
    ensures forall i :: 0 <= i < |r| ==> IsDigit(r[i])
    ensures n >= 10 ==> r[0] != '0'
    decreases n
  {
    if n < 10 then [DigitChar(n)] else NatToString(n / 10) + [DigitChar(n % 10)]
  }

  function DigitValue(c: char): nat
    requires IsDigit(c)
  {
    c as int - '0' as int
  }

  /** Reading a decimal numeral back. */
  function DigitsValue(s: string): nat
    requires forall i :: 0 <= i < |s| ==> IsDigit(s[i])
  {
    if s == [] then 0 else DigitsValue(s[..|s| - 1]) * 10 + DigitValue(s[|s| - 1])
  }

  /** Round trip: the numeral `n.toString()` denotes `n`. */
  lemma {:induction false} NatToStringValue(n: nat)
    ensures DigitsValue(NatToString(n)) == n
    decreases n
  {
    var r := NatToString(n);
    if n < 10 {
      assert r[..|r| - 1] == [];
    } else {
      NatToStringValue(n / 10);
      assert r[..|r| - 1] == NatToString(n / 10);
    }
  }

  /** Different ids render as different strings, so matching `id.toString()`
      against a query selects ids, not look-alikes. */
  lemma NatToStringInjective(m: nat, n: nat)
    requires NatToString(m) == NatToString(n)
    ensures m == n
  {
    NatToStringValue(m);
    NatToStringValue(n);
  }

  // ---------------------------------------------------------------------
  // `s.split(sep)` and its inverse

  /** `s.split(sep)` for a one-character separator: every separator ends a
      piece, and the text after the last one is the final piece (so `""`
      splits into `[""]`). */
  function Split(s: string, sep: char): (r: seq<string>)
    ensures |r| > 0
    decreases |s|
  {
    if s == [] then [""]
    else
      var rest := Split(s[1..], sep);
      if s[0] == sep then [""] + rest else [[s[0]] + rest[0]] + rest[1..]
  }

  /** `parts.join(sep)`. */
  function Join(parts: seq<string>, sep: char): string
    requires |parts| > 0
  {
    if |parts| == 1 then parts[0] else parts[0] + [sep] + Join(parts[1..], sep)
  }

  /** No piece of a split contains the separator. */
  lemma {:induction false} SplitPiecesHaveNoSeparator(s: string, sep: char)
    ensures forall p :: p in Split(s, sep) ==> sep !in p
    decreases |s|
  {
    if s != [] {
      SplitPiecesHaveNoSeparator(s[1..], sep);
      var rest := Split(s[1..], sep);
      assert rest[0] in rest;
      if s[0] != sep {
        forall p | p in Split(s, sep) ensures sep !in p {
          if p != [s[0]] + rest[0] {
            assert p in rest;
          }
        }
      }
    }
  }

  /** Round trip: joining the pieces with the separator gives back the
      original string. */
  lemma {:induction false} JoinSplit(s: string, sep: char)
    ensures Join(Split(s, sep), sep) == s
    decreases |s|
  {
    if s != [] {
      JoinSplit(s[1..], sep);
      var rest := Split(s[1..], sep);
      if s[0] == sep {
        assert Split(s, sep)[1..] == rest;
      } else if |rest| == 1 {
        assert Join(Split(s, sep), sep) == [s[0]] + rest[0];
      } else {
        assert Split(s, sep)[1..] == rest[1..];
        assert Join(rest, sep) == rest[0] + [sep] + Join(rest[1..], sep);
      }
    }
  }
}
