/**
 * The pieces of Rust's `str`/`String` API that the core relies on, over
 * `seq<char>` (a Dafny `char` is a Unicode scalar value, like a Rust `char`).
 */
module Text {
  import opened Wrappers

  /** `char::is_whitespace`: the Unicode White_Space property. */
  predicate IsWhitespace(c: char) {
    || ('\t' <= c <= '\r')
    || c == ' '
    || c == '\U{0085}'
    || c == '\U{00A0}'
    || c == '\U{1680}'
    || ('\U{2000}' <= c <= '\U{200A}')
    || c == '\U{2028}'
    || c == '\U{2029}'
    || c == '\U{202F}'
    || c == '\U{205F}'
    || c == '\U{3000}'
  }

  /** Every character is whitespace: `s.trim().is_empty()`. */
  predicate IsBlank(s: string) {
    forall i :: 0 <= i < |s| ==> IsWhitespace(s[i])
  }

  function TrimStart(s: string): (r: string)
    ensures |r| <= |s| && r == s[|s| - |r|..]
    ensures r != [] ==> !IsWhitespace(r[0])
    ensures IsBlank(s[..|s| - |r|])
  {
    if s != [] && IsWhitespace(s[0]) then
      var r := TrimStart(s[1..]);
      assert s[..|s| - |r|] == [s[0]] + s[1..][..|s[1..]| - |r|];
      r
    else s
  }

  function TrimEnd(s: string): (r: string)
    ensures |r| <= |s| && r == s[..|r|]
    ensures r != [] ==> !IsWhitespace(r[|r| - 1])
    ensures IsBlank(s[|r|..])
  {
    if s != [] && IsWhitespace(s[|s| - 1]) then
      var r := TrimEnd(s[..|s| - 1]);
      assert s[|r|..] == s[..|s| - 1][|r|..] + [s[|s| - 1]];
      r
    else s
  }

  /** `str::trim`: strip leading and trailing whitespace. */
  function Trim(s: string): string {
    TrimEnd(TrimStart(s))
  }

  /** What `trim` keeps is a contiguous piece of the input framed by whitespace only. */
  lemma TrimIsInfix(s: string)
    ensures var r := Trim(s);
      exists i :: (0 <= i <= |s| - |r| && r == s[i..i + |r|]
                   && IsBlank(s[..i]) && IsBlank(s[i + |r|..]))
  {
    var t := TrimStart(s);
    var r := TrimEnd(t);
    var i := |s| - |t|;
    InfixSlices(s, t, r, i);
    assert 0 <= i <= |s| - |r| && r == s[i..i + |r|] && IsBlank(s[..i]) && IsBlank(s[i + |r|..]);
  }

  /** A prefix of a suffix is a slice, and what follows it is the rest of the suffix. */
  lemma InfixSlices<T>(s: seq<T>, t: seq<T>, r: seq<T>, i: nat)
    requires i <= |s| && t == s[i..] && |r| <= |t| && r == t[..|r|]
    ensures i + |r| <= |s| && s[i..i + |r|] == r && s[i + |r|..] == t[|r|..]
  {
  }

  /** `s.trim().is_empty()` holds exactly when every character is whitespace. */
  lemma TrimEmptyIffBlank(s: string)
    ensures Trim(s) == [] <==> IsBlank(s)
  {
    var t := TrimStart(s);
    if !IsBlank(s) {
      var k :| 0 <= k < |s| && !IsWhitespace(s[k]);
      assert TrimEnd(t)[..0] == [];
    }
  }

  /** `trim_start_matches(c)` for a single character `c`. */
  function TrimStartMatches(s: string, c: char): (r: string)
    ensures |r| <= |s| && r == s[|s| - |r|..]
    ensures r != [] ==> r[0] != c
    ensures forall i :: 0 <= i < |s| - |r| ==> s[i] == c
  {
    if s != [] && s[0] == c then TrimStartMatches(s[1..], c) else s
  }

  /**
   * `char::to_lowercase` as far as it can matter when the result is compared
   * with an ASCII string: ASCII capitals, and U+212A KELVIN SIGN, whose
   * lower-case form is the ASCII letter `k`. Every other character either
   * lower-cases to itself or to something that contains a non-ASCII character.
   */
  function LowerChar(c: char): char {
    if 'A' <= c <= 'Z' then (c as int + 32) as char
    else if c == '\U{212A}' then 'k'
    else c
  }

  /** `str::to_lowercase` (see LowerChar). */
  function Lower(s: string): (r: string)
    ensures |r| == |s|
    ensures forall i :: 0 <= i < |s| ==> r[i] == LowerChar(s[i])
  {
    seq(|s|, i requires 0 <= i < |s| => LowerChar(s[i]))
  }

  /**
   * Lower-casing is idempotent, and what it returns holds no letter it
   * would change.
   */
  lemma LowerIdempotent(s: string)
    ensures Lower(Lower(s)) == Lower(s)
    ensures forall i :: 0 <= i < |s| ==> !('A' <= Lower(s)[i] <= 'Z') && Lower(s)[i] != '\U{212A}'
  {
  }

  /** `s` starts with `p` (`str::starts_with`). */
  predicate StartsWith(s: string, p: string) {
    |p| <= |s| && s[..|p|] == p
  }

  lemma StartsWithConcat(p: string, rest: string)
    ensures StartsWith(p + rest, p)
  {
    assert (p + rest)[..|p|] == p;
  }

  /** `p` occurs in `s` at index `i`. */
  predicate OccursAt(s: string, p: string, i: int) {
    0 <= i && i + |p| <= |s| && s[i..i + |p|] == p
  }

  /** `str::find`: the first index at which `p` occurs in `s`. */
  function Find(s: string, p: string): (r: Option<nat>)
    ensures r.Some? ==> OccursAt(s, p, r.value)
    ensures r.Some? ==> forall j :: 0 <= j < r.value ==> !OccursAt(s, p, j)
    ensures r.None? ==> forall j :: 0 <= j <= |s| ==> !OccursAt(s, p, j)
  {
    FindFrom(s, p, 0)
  }

  function FindFrom(s: string, p: string, k: nat): (r: Option<nat>)
    requires k <= |s| + 1
    requires forall j :: 0 <= j < k ==> !OccursAt(s, p, j)
    ensures r.Some? ==> k <= r.value && OccursAt(s, p, r.value)
    ensures r.Some? ==> forall j :: 0 <= j < r.value ==> !OccursAt(s, p, j)
    ensures r.None? ==> forall j :: 0 <= j <= |s| ==> !OccursAt(s, p, j)
    decreases |s| + 1 - k
  {
    if k + |p| > |s| then None
    else if s[k..k + |p|] == p then Some(k)
    else FindFrom(s, p, k + 1)
  }

  /** `s.chars().take(n).collect()`. */
  function Take(s: string, n: nat): (r: string)
    ensures |r| == if |s| <= n then |s| else n
    ensures r == s[..|r|]
  {
    if |s| <= n then s else s[..n]
  }

  /** `str::replace(pat, rep)`: every non-overlapping occurrence, left to right. */
  function Replace(s: string, pat: string, rep: string): string
    requires pat != []
    decreases |s|
  {
    if |s| < |pat| then s
    else if s[..|pat|] == pat then rep + Replace(s[|pat|..], pat, rep)
    else [s[0]] + Replace(s[1..], pat, rep)
  }

  /** Replacing a pattern by itself changes nothing. */
  lemma {:induction false} ReplaceBySelf(s: string, pat: string)
    requires pat != []
    ensures Replace(s, pat, pat) == s
    decreases |s|
  {
    if |s| < |pat| {
    } else if s[..|pat|] == pat {
      ReplaceBySelf(s[|pat|..], pat);
      assert s == s[..|pat|] + s[|pat|..];
    } else {
      ReplaceBySelf(s[1..], pat);
      assert s == [s[0]] + s[1..];
    }
  }

  /** Without an occurrence of the pattern the text comes back unchanged. */
  lemma {:induction false} ReplaceWithoutOccurrence(s: string, pat: string, rep: string)
    requires pat != []
    requires forall j :: 0 <= j <= |s| ==> !OccursAt(s, pat, j)
    ensures Replace(s, pat, rep) == s
    decreases |s|
  {
    if |s| >= |pat| {
      assert !OccursAt(s, pat, 0);
      forall j | 0 <= j <= |s[1..]| ensures !OccursAt(s[1..], pat, j) {
        assert !OccursAt(s, pat, j + 1);
        if j + |pat| <= |s[1..]| {
          assert s[1..][j..j + |pat|] == s[j + 1..j + 1 + |pat|];
        }
      }
      ReplaceWithoutOccurrence(s[1..], pat, rep);
      assert s == [s[0]] + s[1..];
    }
  }

  /** `s` contains the two-character placeholder `{}`. */
  predicate HasPlaceholder(s: string) {
    exists j :: 0 <= j < |s| - 1 && s[j] == '{' && s[j + 1] == '}'
  }

  predicate BraceFree(s: string) {
    forall i :: 0 <= i < |s| ==> s[i] != '{' && s[i] != '}'
  }

  /** What `Replace(s, "{}", rep)` starts with, for a non-empty replacement. */
  lemma ReplaceHead(s: string, rep: string)
    requires rep != []
    ensures var r := Replace(s, "{}", rep);
      (s == [] <==> r == []) &&
      (s != [] ==> r[0] == if StartsWith(s, "{}") then rep[0] else s[0])
  {
  }

  /**
   * Substituting a non-empty, brace-free text for `{}` leaves no placeholder
   * behind: every `{}` of the template is replaced.
   */
  lemma {:induction false} ReplaceLeavesNoPlaceholder(s: string, rep: string)
    requires rep != [] && BraceFree(rep)
    ensures !HasPlaceholder(Replace(s, "{}", rep))
    decreases |s|
  {
    var r := Replace(s, "{}", rep);
    if |s| < 2 {
    } else if s[..2] == "{}" {
      var t := Replace(s[2..], "{}", rep);
      ReplaceLeavesNoPlaceholder(s[2..], rep);
      assert r == rep + t;
      forall j | 0 <= j < |r| - 1 ensures !(r[j] == '{' && r[j + 1] == '}') {
        if j < |rep| {
          assert r[j] == rep[j];
        } else {
          assert t[j - |rep|] == r[j] && t[j - |rep| + 1] == r[j + 1];
        }
      }
    } else {
      var t := Replace(s[1..], "{}", rep);
      ReplaceLeavesNoPlaceholder(s[1..], rep);
      ReplaceHead(s[1..], rep);
      assert r == [s[0]] + t;
      forall j | 0 <= j < |r| - 1 ensures !(r[j] == '{' && r[j + 1] == '}') {
        if j == 0 {
          if StartsWith(s[1..], "{}") {
            assert r[1] == rep[0];
          } else {
            assert r[1] == s[1];
            assert s[..2] == [s[0], s[1]];
          }
        } else {
          assert t[j - 1] == r[j] && t[j] == r[j + 1];
        }
      }
    }
  }

  /** `parts.join(sep)`. */
  function Join(parts: seq<string>, sep: string): string {
    if parts == [] then ""
    else if |parts| == 1 then parts[0]
    else parts[0] + sep + Join(parts[1..], sep)
  }

  /** Joining five parts. */
  lemma JoinFive(a: string, b: string, c: string, d: string, e: string, sep: string)
    ensures Join([a, b, c, d, e], sep) == a + sep + b + sep + c + sep + d + sep + e
  {
    var p := [a, b, c, d, e];
    assert p[1..] == [b, c, d, e] && p[2..] == [c, d, e] && p[3..] == [d, e] && p[4..] == [e];
    assert Join([d, e], sep) == d + sep + e;
    assert Join([c, d, e], sep) == c + sep + (d + sep + e);
    assert Join([b, c, d, e], sep) == b + sep + (c + sep + (d + sep + e));
    assert Join(p, sep) == a + sep + (b + sep + (c + sep + (d + sep + e)));
  }
}
