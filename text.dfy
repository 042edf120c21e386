/**
 * The few JavaScript and Python string operations the core relies on,
 * with the semantics of those languages: `split` with a string separator,
 * `join`, `startsWith`, the `a || b || c` chain over strings (the empty
 * string is falsy), `toUpperCase` on ASCII letters, `slice(0, n)` and
 * Python's `str()` of a natural number.
 */
module Text {

  predicate StartsWith(s: string, prefix: string) {
    |prefix| <= |s| && s[..|prefix|] == prefix
  }

  /** `parts.join(sep)`. */
  function Join(parts: seq<string>, sep: string): string
  {
    if |parts| == 0 then ""
    else if |parts| == 1 then parts[0]
    else parts[0] + sep + Join(parts[1..], sep)
  }

  /**
   * `s.split(sep)` for a non-empty separator: occurrences are taken from the
   * left without overlapping, and there is always at least one part
   * (`"".split(sep)` is `[""]`).
   */
  function Split(s: string, sep: string): (parts: seq<string>)
    requires |sep| > 0
    ensures |parts| >= 1
    decreases |s|
  {
    if |s| < |sep| then [s]
    else if s[..|sep|] == sep then [""] + Split(s[|sep|..], sep)
    else
      var rest := Split(s[1..], sep);
      [[s[0]] + rest[0]] + rest[1..]
  }

  /** Gluing a part's first character back on commutes with `join`. */
  lemma {:induction false} JoinConsFirst(c: char, parts: seq<string>, sep: string)
    requires |parts| >= 1
    ensures Join([[c] + parts[0]] + parts[1..], sep) == [c] + Join(parts, sep)
  {
    var glued := [[c] + parts[0]] + parts[1..];
    assert glued[1..] == parts[1..];
    if |parts| > 1 {
      assert Join(glued, sep) == ([c] + parts[0]) + sep + Join(parts[1..], sep);
    }
  }

  /** Splitting and joining again with the same separator gives the input back. */
  lemma {:induction false} SplitJoin(s: string, sep: string)
    requires |sep| > 0
    ensures Join(Split(s, sep), sep) == s
    decreases |s|
  {
    if |s| < |sep| {
    } else if s[..|sep|] == sep {
      var rest := Split(s[|sep|..], sep);
      SplitJoin(s[|sep|..], sep);
      assert ([""] + rest)[1..] == rest;
      assert Join([""] + rest, sep) == "" + sep + Join(rest, sep);
      assert s == s[..|sep|] + s[|sep|..];
    } else {
      var rest := Split(s[1..], sep);
      SplitJoin(s[1..], sep);
      JoinConsFirst(s[0], rest, sep);
      assert s == [s[0]] + s[1..];
    }
  }

  /** The longest prefix of `s` in which `c` does not occur. */
  function BeforeChar(s: string, c: char): (r: string)
    ensures r <= s
    ensures c !in r
    ensures |r| == |s| || s[|r|] == c
  {
    if s == [] || s[0] == c then ""
    else [s[0]] + BeforeChar(s[1..], c)
  }

  /** A string without the separator's first character splits into itself alone. */
  lemma {:induction false} SplitWithoutSeparator(s: string, sep: string)
    requires |sep| > 0
    requires sep[0] !in s
    ensures Split(s, sep) == [s]
    decreases |s|
  {
    if |s| >= |sep| {
      assert s[..|sep|][0] == s[0];
      SplitWithoutSeparator(s[1..], sep);
      assert [s[0]] + s[1..] == s;
    }
  }

  /** No part of a split on one character contains that character. */
  lemma {:induction false} SplitPartsAvoid(s: string, c: char)
    ensures forall i :: 0 <= i < |Split(s, [c])| ==> c !in Split(s, [c])[i]
    decreases |s|
  {
    if |s| >= 1 {
      SplitPartsAvoid(s[1..], c);
      if s[..1] != [c] {
        assert s[0] != c;
      }
    }
  }

  /** The first part of a split on one character is the text before that character. */
  lemma {:induction false} SplitFirstPart(s: string, c: char)
    ensures Split(s, [c])[0] == BeforeChar(s, c)
    decreases |s|
  {
    if |s| >= 1 && s[..1] != [c] {
      SplitFirstPart(s[1..], c);
    }
  }

  /** Splitting `p + c + v` on `c`, where `p` is free of `c`, yields `p` and then the parts of `v`. */
  lemma {:induction false} SplitAfterPrefix(p: string, c: char, v: string)
    requires c !in p
    ensures Split(p + [c] + v, [c]) == [p] + Split(v, [c])
    decreases |p|
  {
    var s := p + [c] + v;
    if p == [] {
      assert s[..1] == [c] && s[1..] == v;
    } else {
      assert s[..1] == [p[0]] && p[0] != c;
      assert s[1..] == p[1..] + [c] + v;
      SplitAfterPrefix(p[1..], c, v);
      assert [p[0]] + p[1..] == p;
    }
  }

  /**
   * `cands[0] || cands[1] || ... || fallback` over strings: the first
   * non-empty candidate, or the fallback when every candidate is empty.
   */
  function FirstNonEmpty(cands: seq<string>, fallback: string): (m: string)
    requires fallback != ""
    ensures m != ""
    ensures m == fallback || m in cands
    ensures forall i :: 0 <= i < |cands| && cands[i] != "" && (forall j :: 0 <= j < i ==> cands[j] == "") ==> m == cands[i]
    ensures (forall i :: 0 <= i < |cands| ==> cands[i] == "") ==> m == fallback
  {
    if cands == [] then fallback
    else if cands[0] != "" then cands[0]
    else
      var m := FirstNonEmpty(cands[1..], fallback);
      assert forall i :: 1 <= i < |cands| ==> cands[i] == cands[1..][i - 1];
      m
  }

  /** `toUpperCase` on one character, for the ASCII letters. */
  function UpperChar(c: char): (r: char)
    ensures !('a' <= r <= 'z')
    ensures !('a' <= c <= 'z') ==> r == c
    ensures 'a' <= c <= 'z' ==> 'A' <= r <= 'Z' && r as int - 'A' as int == c as int - 'a' as int
  {
    if 'a' <= c <= 'z' then (c as int - 'a' as int + 'A' as int) as char else c
  }

  function Upper(s: string): (r: string)
    ensures |r| == |s|
    ensures forall i :: 0 <= i < |s| ==> r[i] == UpperChar(s[i])
  {
    if s == [] then "" else [UpperChar(s[0])] + Upper(s[1..])
  }

  /** `s.slice(0, n)`. */
  function Take(s: string, n: nat): (r: string)
    ensures |r| <= n && r <= s
    ensures |s| <= n ==> r == s
  {
    if |s| <= n then s else s[..n]
  }

  function DigitChar(d: nat): (c: char)
    requires d < 10
    ensures '0' <= c <= '9'
  {
    ('0' as int + d) as char
  }

  /** The number a string of decimal digits stands for. */
  function DecimalValue(s: string): nat
    requires forall i :: 0 <= i < |s| ==> '0' <= s[i] <= '9'
  {
    if s == [] then 0
    else DecimalValue(s[..|s| - 1]) * 10 + (s[|s| - 1] as int - '0' as int)
  }

  /** Python's `str(n)` for a natural number. */
  function NatToString(n: nat): (s: string)
    ensures |s| >= 1
    ensures forall i :: 0 <= i < |s| ==> '0' <= s[i] <= '9'
    ensures s[0] == '0' <==> n == 0
    ensures n == 0 ==> s == "0"
  {
    if n < 10 then [DigitChar(n)] else NatToString(n / 10) + [DigitChar(n % 10)]
  }

  /** `str(n)` is read back as `n`: the decimal rendering loses nothing. */
  lemma {:induction false} NatToStringValue(n: nat)
    ensures DecimalValue(NatToString(n)) == n
  {
    var s := NatToString(n);
    if n >= 10 {
      NatToStringValue(n / 10);
      assert s[..|s| - 1] == NatToString(n / 10);
    }
  }
}
