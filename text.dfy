/**
 * String helpers with the meaning Python gives them in the modelled code:
 * truthiness of strings, dict.get with a default, str.join, str.rstrip,
 * the `in` substring test, ASCII str.lower and SQLite's text comparison.
 */
module Text {
  import opened Wrappers

  /** Python's `if s:` for a string. */
  predicate Truthy(s: string) { s != "" }

  /** Python's `if o:` for an Optional[str]: present and non-empty. */
  predicate OptTruthy(o: Option<string>) { o.Some? && o.value != "" }

  /** `s if s else None`: the empty string becomes None. */
  function NoneIfEmpty(s: string): (r: Option<string>)
    ensures OptTruthy(r) <==> Truthy(s)
    ensures r.Some? ==> r.value == s
  {
    if s == "" then None else Some(s)
  }

  /** `m.get(k, d)`. */
  function Get(m: map<string, string>, k: string, d: string): string {
    if k in m then m[k] else d
  }

  /** `m.get(k)` used as a truth value: the key is present with a non-empty value. */
  predicate HasValue(m: map<string, string>, k: string) {
    k in m && m[k] != ""
  }

  /** Python's `a or b` for strings. */
  function Or(a: string, b: string): string {
    if a != "" then a else b
  }

  predicate StartsWith(s: string, p: string) {
    |p| <= |s| && s[..|p|] == p
  }

  /** `sub` occurs in `s` starting at position `i`. */
  predicate OccursAt(s: string, sub: string, i: int) {
    0 <= i <= |s| - |sub| && s[i..i + |sub|] == sub
  }

  /** Python's `sub in s`. */
  predicate Contains(s: string, sub: string) {
    exists i | 0 <= i <= |s| :: OccursAt(s, sub, i)
  }

  lemma ContainsSuffix(s: string, sub: string)
    ensures Contains(s + sub, sub)
  {
    var t := s + sub;
    assert OccursAt(t, sub, |s|);
  }

  /** `sep.join(parts)`. */
  function Join(sep: string, parts: seq<string>): string
  {
    if |parts| == 0 then ""
    else if |parts| == 1 then parts[0]
    else Join(sep, parts[..|parts| - 1]) + sep + parts[|parts| - 1]
  }

  /** A join is empty exactly when there is nothing, or one empty part, to join (for a non-empty separator). */
  lemma {:induction false} JoinEmpty(sep: string, parts: seq<string>)
    requires sep != ""
    ensures Join(sep, parts) == "" <==> |parts| == 0 || (|parts| == 1 && parts[0] == "")
  {
    if |parts| > 1 {
      assert |Join(sep, parts)| >= |sep|;
    }
  }

  /** `s.rstrip(c)`: drops every trailing occurrence of `c`. */
  function RStrip(s: string, c: char): (r: string)
    ensures |r| <= |s| && s[..|r|] == r
    ensures r == [] || r[|r| - 1] != c
    ensures forall i :: |r| <= i < |s| ==> s[i] == c
  {
    if |s| > 0 && s[|s| - 1] == c then RStrip(s[..|s| - 1], c) else s
  }

  /** ASCII part of `str.lower()`. */
  function LowerChar(c: char): char {
    if 'A' <= c <= 'Z' then (c as int + 32) as char else c
  }

  function Lower(s: string): (r: string)
    ensures |r| == |s|
    ensures forall i :: 0 <= i < |s| ==> r[i] == LowerChar(s[i])
  {
    if s == [] then [] else [LowerChar(s[0])] + Lower(s[1..])
  }

  /**
   * SQLite's BINARY collation on TEXT: compares the UTF-8 bytes, which orders
   * strings by code point, a proper prefix first.
   */
  predicate LexLess(a: string, b: string)
  {
    if a == [] then b != []
    else if b == [] then false
    else if a[0] != b[0] then a[0] < b[0]
    else LexLess(a[1..], b[1..])
  }

  lemma {:induction false} LexLessIrreflexive(a: string)
    ensures !LexLess(a, a)
  {
    if a != [] { LexLessIrreflexive(a[1..]); }
  }

  lemma {:induction false} LexLessTotal(a: string, b: string)
    ensures a == b || LexLess(a, b) || LexLess(b, a)
  {
    if a != [] && b != [] && a[0] == b[0] {
      LexLessTotal(a[1..], b[1..]);
      if a[1..] == b[1..] {
        assert a == [a[0]] + a[1..] && b == [b[0]] + b[1..];
      }
    }
  }

  lemma {:induction false} LexLessTransitive(a: string, b: string, c: string)
    requires LexLess(a, b) && LexLess(b, c)
    ensures LexLess(a, c)
  {
    if a != [] && b != [] && c != [] && a[0] == b[0] && b[0] == c[0] {
      LexLessTransitive(a[1..], b[1..], c[1..]);
    }
  }

  /** `s.split(c)`: the pieces between the separators, at least one. */
  function Split(s: string, c: char): (parts: seq<string>)
    ensures |parts| >= 1
    decreases |s|
  {
    if s == [] then [""]
    else if s[0] == c then [""] + Split(s[1..], c)
    else
      var rest := Split(s[1..], c);
      [[s[0]] + rest[0]] + rest[1..]
  }

  /** A string without the separator is one piece. */
  lemma {:induction false} SplitWithoutSeparator(s: string, c: char)
    requires c !in s
    ensures Split(s, c) == [s]
    decreases |s|
  {
    if s != [] {
      assert c !in s[1..] by {
        forall x | x in s[1..] ensures x != c {
          assert x in s;
        }
      }
      SplitWithoutSeparator(s[1..], c);
      assert s[0] != c;
      assert [s[0]] + s[1..] == s;
    }
  }

  /** One separator between two separator-free strings splits them apart again. */
  lemma {:induction false} SplitAtSeparator(a: string, b: string, c: char)
    requires c !in a && c !in b
    ensures Split(a + [c] + b, c) == [a, b]
    decreases |a|
  {
    if a == [] {
      assert a + [c] + b == [c] + b;
      assert (a + [c] + b)[1..] == b;
      SplitWithoutSeparator(b, c);
    } else {
      var s := a + [c] + b;
      assert s[0] == a[0] && s[0] != c;
      assert s[1..] == a[1..] + [c] + b;
      assert c !in a[1..] by {
        forall x | x in a[1..] ensures x != c {
          assert x in a;
        }
      }
      SplitAtSeparator(a[1..], b, c);
      assert [a[0]] + a[1..] == a;
    }
  }
}
