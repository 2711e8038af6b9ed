/**
 * The few Python `str` operations the application relies on: `strip()`
 * emptiness, `lower()`, `startswith`, `endswith` and `replace(old, new, 1)`.
 */
module Strings {

  /** The characters `str.strip()` with no argument removes (Python's whitespace). */
  predicate IsSpace(c: char) {
    var k := c as int;
    || (9 <= k <= 13) || (28 <= k <= 32) || k == 0x85 || k == 0xA0 || k == 0x1680
    || (0x2000 <= k <= 0x200A) || k == 0x2028 || k == 0x2029 || k == 0x202F
    || k == 0x205F || k == 0x3000
  }

  /** `not s.strip()`: the string holds nothing but whitespace. */
  predicate IsBlank(s: string) {
    forall i | 0 <= i < |s| :: IsSpace(s[i])
  }

  /** `s.strip() != ''`: what a required text field must satisfy. */
  predicate Required(s: string) {
    !IsBlank(s)
  }

  /** Lower-casing of one character (ASCII letters only). */
  function LowerChar(c: char): char {
    if 'A' <= c <= 'Z' then (c as int + 32) as char else c
  }

  /** `s.lower()`, restricted to ASCII letters. */
  function Lower(s: string): (r: string)
    ensures |r| == |s|
    ensures forall i | 0 <= i < |s| :: r[i] == LowerChar(s[i])
  {
    seq(|s|, i requires 0 <= i < |s| => LowerChar(s[i]))
  }

  predicate StartsWith(s: string, prefix: string) {
    |prefix| <= |s| && s[..|prefix|] == prefix
  }

  predicate EndsWith(s: string, suffix: string) {
    |suffix| <= |s| && s[|s| - |suffix|..] == suffix
  }

  /** `pattern` occurs in `s` starting at index `i`. */
  predicate OccursAt(s: string, pattern: string, i: int) {
    0 <= i && i + |pattern| <= |s| && s[i..i + |pattern|] == pattern
  }

  /**
   * `s.replace(pattern, replacement, 1)`: scanning from the left, the first
   * occurrence of `pattern` is replaced and the rest of `s` is kept as is.
   */
  function ReplaceFirst(s: string, pattern: string, replacement: string): string
    decreases |s|
  {
    if StartsWith(s, pattern) then replacement + s[|pattern|..]
    else if s == [] then s
    else [s[0]] + ReplaceFirst(s[1..], pattern, replacement)
  }

  /** Replacing where the leftmost occurrence is at `i` splices at `i`. */
  lemma {:induction false} ReplaceFirstAtLeftmost(s: string, pattern: string, replacement: string, i: int)
    requires OccursAt(s, pattern, i)
    requires forall j | 0 <= j < i :: !OccursAt(s, pattern, j)
    ensures ReplaceFirst(s, pattern, replacement) == s[..i] + replacement + s[i + |pattern|..]
  {
    if i == 0 {
      assert s[..|pattern|] == s[0..|pattern|];
    } else {
      assert !OccursAt(s, pattern, 0);
      var t := s[1..];
      assert OccursAt(t, pattern, i - 1) by {
        assert t[i - 1..i - 1 + |pattern|] == s[i..i + |pattern|];
      }
      forall j | 0 <= j < i - 1
        ensures !OccursAt(t, pattern, j)
      {
        assert !OccursAt(s, pattern, j + 1);
        if j + |pattern| <= |t| {
          assert t[j..j + |pattern|] == s[j + 1..j + 1 + |pattern|];
        }
      }
      ReplaceFirstAtLeftmost(t, pattern, replacement, i - 1);
      assert s[..i] == [s[0]] + t[..i - 1];
      assert s[i + |pattern|..] == t[i - 1 + |pattern|..];
    }
  }

  /** With no occurrence of `pattern`, `replace` returns its input. */
  lemma {:induction false} ReplaceFirstAbsent(s: string, pattern: string, replacement: string)
    requires forall j | 0 <= j <= |s| :: !OccursAt(s, pattern, j)
    ensures ReplaceFirst(s, pattern, replacement) == s
  {
    assert !OccursAt(s, pattern, 0);
    if s != [] {
      var t := s[1..];
      forall j | 0 <= j <= |t|
        ensures !OccursAt(t, pattern, j)
      {
        assert !OccursAt(s, pattern, j + 1);
        if j + |pattern| <= |t| {
          assert t[j..j + |pattern|] == s[j + 1..j + 1 + |pattern|];
        }
      }
      ReplaceFirstAbsent(t, pattern, replacement);
      assert s == [s[0]] + t;
    }
  }
}
