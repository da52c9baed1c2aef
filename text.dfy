/**
 * The JavaScript string operations the views rely on: `trim`, `toLowerCase`,
 * `toUpperCase`, `includes` and `startsWith`, and string truthiness.
 */
module Text {
  import opened Wrappers

  /** The characters `String.prototype.trim` removes: WhiteSpace and LineTerminator. */
  predicate IsJsWhitespace(c: char) {
    c == '\t' || c == '\n' || c == '\U{000B}' || c == '\U{000C}' || c == '\r' || c == ' '
    || c == '\U{00A0}' || c == '\U{1680}' || ('\U{2000}' <= c <= '\U{200A}')
    || c == '\U{2028}' || c == '\U{2029}' || c == '\U{202F}' || c == '\U{205F}'
    || c == '\U{3000}' || c == '\U{FEFF}'
  }

  function TrimStart(s: string): (r: string)
    ensures |r| <= |s| && r == s[|s| - |r|..]
    ensures r != [] ==> !IsJsWhitespace(r[0])
  {
    if s != [] && IsJsWhitespace(s[0]) then TrimStart(s[1..]) else s
  }

  function TrimEnd(s: string): (r: string)
    ensures |r| <= |s| && r == s[..|r|]
    ensures r != [] ==> !IsJsWhitespace(r[|r| - 1])
  {
    if s != [] && IsJsWhitespace(s[|s| - 1]) then TrimEnd(s[..|s| - 1]) else s
  }

  /** `s.trim()` */
  function Trim(s: string): string {
    TrimEnd(TrimStart(s))
  }

  /** `!s.trim()`: the check every form validator applies. */
  predicate IsBlank(s: string) {
    Trim(s) == ""
  }

  /** A string is blank after trimming exactly when every character is whitespace. */
  lemma {:induction false} BlankIffAllWhitespace(s: string)
    ensures IsBlank(s) <==> forall i :: 0 <= i < |s| ==> IsJsWhitespace(s[i])
  {
    AllWhitespaceTrimStart(s);
    var t := TrimStart(s);
    if t != [] {
      TrimEndKeepsFirst(t);
    }
  }

  lemma {:induction false} TrimEndKeepsFirst(t: string)
    requires t != [] && !IsJsWhitespace(t[0])
    ensures TrimEnd(t) != []
  {
    if |t| > 1 && IsJsWhitespace(t[|t| - 1]) {
      TrimEndKeepsFirst(t[..|t| - 1]);
    }
  }

  lemma {:induction false} AllWhitespaceTrimStart(s: string)
    ensures TrimStart(s) == [] <==> forall i :: 0 <= i < |s| ==> IsJsWhitespace(s[i])
  {
    if s != [] {
      AllWhitespaceTrimStart(s[1..]);
      if IsJsWhitespace(s[0]) {
        assert forall i :: 1 <= i < |s| ==> s[i] == s[1..][i - 1];
      }
    }
  }

  /** JavaScript truthiness of an optional string: present and non-empty. */
  predicate Truthy(s: Option<string>) {
    s.Some? && s.value != ""
  }

  function LowerChar(c: char): char {
    if 'A' <= c <= 'Z' then (c as int + 32) as char else c
  }

  function UpperChar(c: char): char {
    if 'a' <= c <= 'z' then (c as int - 32) as char else c
  }

  /** `s.toLowerCase()` with ASCII case folding. */
  function Lower(s: string): (r: string)
    ensures |r| == |s|
    ensures forall i :: 0 <= i < |s| ==> r[i] == LowerChar(s[i])
  {
    seq(|s|, i requires 0 <= i < |s| => LowerChar(s[i]))
  }

  /** `s.startsWith(prefix)` */
  predicate StartsWith(s: string, prefix: string) {
    prefix <= s
  }

  /** `haystack.includes(needle)`: `needle` occurs at some position of `haystack`. */
  predicate Contains(haystack: string, needle: string)
    decreases |haystack|
  {
    needle <= haystack || (haystack != [] && Contains(haystack[1..], needle))
  }

  /** `needle` starts at offset `k` of `haystack`. */
  predicate OccursAt(haystack: string, needle: string, k: int) {
    0 <= k <= |haystack| - |needle| && haystack[k..k + |needle|] == needle
  }

  /** `Contains` agrees with "there is an offset where `needle` starts". */
  lemma {:induction false} ContainsAt(haystack: string, needle: string)
    ensures Contains(haystack, needle) <==> exists k :: OccursAt(haystack, needle, k)
  {
    if needle <= haystack {
      assert OccursAt(haystack, needle, 0);
    } else if haystack != [] {
      ContainsAt(haystack[1..], needle);
      if Contains(haystack[1..], needle) {
        var k :| OccursAt(haystack[1..], needle, k);
        assert haystack[k + 1..k + 1 + |needle|] == haystack[1..][k..k + |needle|];
        assert OccursAt(haystack, needle, k + 1);
      }
      if exists k :: OccursAt(haystack, needle, k) {
        var k :| OccursAt(haystack, needle, k);
        if k > 0 {
          assert haystack[1..][k - 1..k - 1 + |needle|] == haystack[k..k + |needle|];
          assert OccursAt(haystack[1..], needle, k - 1);
        }
      }
    }
  }

  /** `s.indexOf(c)`, with `|s|` standing for "not found". */
  function IndexOfChar(s: string, c: char): (k: nat)
    ensures k <= |s|
    ensures forall i :: 0 <= i < k ==> s[i] != c
    ensures k < |s| ==> s[k] == c
  {
    if s == [] || s[0] == c then 0 else 1 + IndexOfChar(s[1..], c)
  }

  /** A text without `c`, followed by a suffix that is empty or starts with `c`: the first `c` is where the suffix begins. */
  lemma {:induction false} IndexOfCharAfter(prefix: string, c: char, suffix: string)
    requires forall i :: 0 <= i < |prefix| ==> prefix[i] != c
    requires suffix == [] || suffix[0] == c
    ensures IndexOfChar(prefix + suffix, c) == |prefix|
  {
    if prefix != [] {
      assert (prefix + suffix)[1..] == prefix[1..] + suffix;
      IndexOfCharAfter(prefix[1..], c, suffix);
    } else {
      assert prefix + suffix == suffix;
    }
  }

  /** `x.toLowerCase().includes(q.toLowerCase())`: the views' case-insensitive search. */
  predicate IncludesIgnoringCase(x: string, q: string) {
    Contains(Lower(x), Lower(q))
  }

  /** The empty query is found in every string. */
  lemma EmptyQueryMatches(x: string)
    ensures IncludesIgnoringCase(x, "")
  {
    assert Lower("") == "";
  }

  /** Matching ignores the case of both the text and the query. */
  lemma {:induction false} SelfMatchesIgnoringCase(x: string)
    ensures IncludesIgnoringCase(x, x)
  {
    assert Lower(x) <= Lower(x);
  }
}
