/** The few pieces of JavaScript value semantics the dispatch core relies on:
    `undefined`, truthiness, `String.prototype.trim`, `replace` with a string
    pattern, `substring(0, n)` and `toLowerCase`. */
module JsValues {

  /** A value that may be `undefined`. */
  datatype Option<+T> = None | Some(value: T)

  /** A field of a parsed JSON request body, as far as `typeof` and truthiness
      tell fields apart: missing, a string, or any other JSON value (number,
      boolean, object, array, null) together with its truthiness. */
  datatype Value = Absent | Str(s: string) | NonString(truthy: bool)

  /** JavaScript truthiness of a body field: a string is truthy iff it is non-empty. */
  predicate Truthy(v: Value) {
    match v
    case Absent => false
    case Str(s) => s != ""
    case NonString(t) => t
  }

  /** `x || d` for an optional string `x`. */
  function OrDefault(x: Option<string>, d: string): string {
    if x.Some? && x.value != "" then x.value else d
  }

  /** The characters `trim` removes: ECMAScript WhiteSpace and LineTerminator. */
  predicate IsWhitespace(c: char) {
    || c == '\t' || c == '\n' || c == '\U{000B}' || c == '\U{000C}' || c == '\r'
    || c == ' ' || c == '\U{00A0}' || c == '\U{1680}'
    || ('\U{2000}' <= c <= '\U{200A}')
    || c == '\U{2028}' || c == '\U{2029}' || c == '\U{202F}' || c == '\U{205F}'
    || c == '\U{3000}' || c == '\U{FEFF}'
  }

  /** `s.trim()`: whitespace is dropped from both ends, one character at a
      time; the result is empty exactly when `s` is all whitespace. */
  function Trim(s: string): (r: string)
    ensures |r| <= |s|
    ensures r == [] <==> forall i :: 0 <= i < |s| ==> IsWhitespace(s[i])
  {
    if s != [] && IsWhitespace(s[0]) then Trim(s[1..])
    else if s != [] && IsWhitespace(s[|s| - 1]) then Trim(s[..|s| - 1])
    else s
  }

  /** The number of whitespace characters `s` starts with. */
  function LeadingWhitespace(s: string): (n: nat)
    ensures n <= |s|
    ensures forall i :: 0 <= i < n ==> IsWhitespace(s[i])
    ensures n < |s| ==> !IsWhitespace(s[n])
  {
    if s != [] && IsWhitespace(s[0]) then 1 + LeadingWhitespace(s[1..]) else 0
  }

  /** What `trim` keeps is the run of `s` that starts after its leading
      whitespace. */
  lemma {:induction false} TrimShape(s: string)
    ensures LeadingWhitespace(s) + |Trim(s)| <= |s|
    ensures Trim(s) == s[LeadingWhitespace(s)..LeadingWhitespace(s) + |Trim(s)|]
  {
    var r := Trim(s);
    if s != [] && IsWhitespace(s[0]) {
      var u := s[1..];
      TrimShape(u);
      var a := LeadingWhitespace(u);
      assert r == Trim(u) && LeadingWhitespace(s) == a + 1;
      assert r == u[a..a + |r|];
      assert u[a..a + |r|] == s[a + 1..a + 1 + |r|];
    } else if s != [] && IsWhitespace(s[|s| - 1]) {
      var t := s[..|s| - 1];
      TrimShape(t);
      assert r == Trim(t) && LeadingWhitespace(s) == 0 == LeadingWhitespace(t);
      assert r == t[0..|r|];
      assert t[0..|r|] == s[0..|r|];
    } else {
      assert r == s && LeadingWhitespace(s) == 0;
      assert s == s[0..|s|];
    }
  }

  /** Everything after what `trim` keeps is whitespace. */
  lemma {:induction false} TrimDropsTrailing(s: string)
    ensures forall i :: LeadingWhitespace(s) + |Trim(s)| <= i < |s| ==> IsWhitespace(s[i])
  {
    var r := Trim(s);
    if s != [] && IsWhitespace(s[0]) {
      var u := s[1..];
      TrimDropsTrailing(u);
      assert r == Trim(u) && LeadingWhitespace(s) == LeadingWhitespace(u) + 1;
      forall i | LeadingWhitespace(s) + |r| <= i < |s| ensures IsWhitespace(s[i]) {
        assert s[i] == u[i - 1];
      }
    } else if s != [] && IsWhitespace(s[|s| - 1]) {
      var t := s[..|s| - 1];
      TrimDropsTrailing(t);
      assert r == Trim(t) && LeadingWhitespace(s) == 0 == LeadingWhitespace(t);
      forall i | |r| <= i < |s| ensures IsWhitespace(s[i]) {
        if i < |t| { assert s[i] == t[i]; }
      }
    } else {
      assert LeadingWhitespace(s) == 0;
    }
  }

  /** A non-empty trimmed string neither starts nor ends with whitespace. */
  lemma {:induction false} TrimBorders(s: string)
    ensures Trim(s) != [] ==> !IsWhitespace(Trim(s)[0]) && !IsWhitespace(Trim(s)[|Trim(s)| - 1])
  {
    if s != [] && IsWhitespace(s[0]) {
      TrimBorders(s[1..]);
    } else if s != [] && IsWhitespace(s[|s| - 1]) {
      TrimBorders(s[..|s| - 1]);
    }
  }

  /** `pat` occurs in `s` starting at index `i`. */
  predicate OccursAt(s: string, pat: string, i: nat) {
    i + |pat| <= |s| && s[i..i + |pat|] == pat
  }

  /** `i` is the first index at which `pat` occurs in `s`. */
  predicate FirstOccurrence(s: string, pat: string, i: nat) {
    OccursAt(s, pat, i) && forall j: nat :: j < i ==> !OccursAt(s, pat, j)
  }

  /** The first index at or after `from` where `pat` occurs in `s`, if any. */
  function IndexOf(s: string, pat: string, from: nat): (r: Option<nat>)
    decreases |s| - from
    ensures r.Some? ==> from <= r.value && OccursAt(s, pat, r.value)
    ensures r.Some? ==> forall j: nat :: from <= j < r.value ==> !OccursAt(s, pat, j)
    ensures r.None? ==> forall j: nat :: from <= j ==> !OccursAt(s, pat, j)
  {
    if from + |pat| > |s| then None
    else if s[from..from + |pat|] == pat then Some(from)
    else IndexOf(s, pat, from + 1)
  }

  /** `s.replace(pat, rep)` with a string pattern: only the FIRST occurrence of
      `pat`, wherever it stands, is replaced; without one, `s` is returned as is.
      (`rep` is taken literally; the callers here pass no `$` patterns.) */
  function ReplaceFirst(s: string, pat: string, rep: string): (r: string)
    ensures (forall j: nat :: !OccursAt(s, pat, j)) ==> r == s
    ensures forall i: nat :: FirstOccurrence(s, pat, i) ==> r == s[..i] + rep + s[i + |pat|..]
  {
    match IndexOf(s, pat, 0)
    case None => s
    case Some(i) =>
      assert forall k: nat :: FirstOccurrence(s, pat, k) ==> k == i by {
        forall k: nat | FirstOccurrence(s, pat, k) ensures k == i {
        }
      }
      s[..i] + rep + s[i + |pat|..]
  }

  /** `s.substring(0, n)`: the first `n` characters, or all of `s` when it is shorter. */
  function Prefix(s: string, n: nat): (r: string)
    ensures |r| == if n < |s| then n else |s|
    ensures r <= s
  {
    if n < |s| then s[..n] else s
  }

  /** `toLowerCase` on one character, as far as it can produce an ASCII letter:
      `A`-`Z` and U+212A KELVIN SIGN (which lower-cases to `k`). */
  function LowerChar(c: char): char {
    if 'A' <= c <= 'Z' then (c as int + 32) as char
    else if c == '\U{212A}' then 'k'
    else c
  }

  /** `s.toLowerCase()`, character by character. */
  function ToLower(s: string): (r: string)
    ensures |r| == |s|
    ensures forall i :: 0 <= i < |s| ==> r[i] == LowerChar(s[i])
  {
    seq(|s|, i requires 0 <= i < |s| => LowerChar(s[i]))
  }

  /** `c` lower-cases to the ASCII letter `k`: it is `k` itself, its upper-case
      form, or, for `k`, the KELVIN SIGN. */
  predicate LowersTo(c: char, k: char) {
    c == k || c as int == k as int - 32 || (k == 'k' && c == '\U{212A}')
  }

  /** Lower-cased, `s` equals the lower-case ASCII word `key` exactly when it
      spells `key` letter by letter in any mix of cases. */
  lemma {:induction false} ToLowerMatchesKey(s: string, key: string)
    requires forall i :: 0 <= i < |key| ==> 'a' <= key[i] <= 'z'
    ensures ToLower(s) == key <==> |s| == |key| && forall i :: 0 <= i < |s| ==> LowersTo(s[i], key[i])
  {
    if ToLower(s) == key {
      forall i | 0 <= i < |s| ensures LowersTo(s[i], key[i]) {
        assert LowerChar(s[i]) == key[i];
      }
    }
    if |s| == |key| && forall i :: 0 <= i < |s| ==> LowersTo(s[i], key[i]) {
      forall i | 0 <= i < |s| ensures ToLower(s)[i] == key[i] {
        assert LowersTo(s[i], key[i]);
      }
      assert ToLower(s) == key;
    }
  }

  /** Lower-casing twice is lower-casing once. */
  lemma ToLowerIdempotent(s: string)
    ensures ToLower(ToLower(s)) == ToLower(s)
  {
    var once := ToLower(s);
    assert forall i :: 0 <= i < |s| ==> LowerChar(once[i]) == once[i];
  }
}
