/**
 * The few Python `str` operations the scripts rely on, over `string` (`seq<char>`):
 * `strip()`, `strip('|')`, `split()`, `split('\n')`, `startswith`, the `in`
 * substring test, `replace(c, '')`, `lower()` and `list.index`.
 */
module Text {
  import opened Wrappers

  /** The characters for which Python's `str.isspace()` holds. */
  predicate IsSpace(c: char)
  {
    '\U{0009}' <= c <= '\U{000D}' || '\U{001C}' <= c <= '\U{0020}' || c == '\U{0085}' || c == '\U{00A0}' ||
    c == '\U{1680}' || '\U{2000}' <= c <= '\U{200A}' || c == '\U{2028}' || c == '\U{2029}' ||
    c == '\U{202F}' || c == '\U{205F}' || c == '\U{3000}'
  }

  const Whitespace: set<char> := set c: char | '\U{0009}' <= c <= '\U{3000}' && IsSpace(c)

  /** True when no character of `s` is whitespace. */
  predicate NoSpace(s: string) { forall k :: 0 <= k < |s| ==> !IsSpace(s[k]) }

  /** Drops every leading character that belongs to `cs`. */
  function TrimStart(s: string, cs: set<char>): (r: string)
    ensures |r| <= |s|
  {
    if s != [] && s[0] in cs then TrimStart(s[1..], cs) else s
  }

  /** What `TrimStart` drops is a run of characters of `cs`, and what it keeps does not start with one. */
  lemma {:induction false} TrimStartSpec(s: string, cs: set<char>)
    ensures TrimStart(s, cs) == s[|s| - |TrimStart(s, cs)|..]
    ensures TrimStart(s, cs) == [] || TrimStart(s, cs)[0] !in cs
    ensures forall k :: 0 <= k < |s| - |TrimStart(s, cs)| ==> s[k] in cs
  {
    if s != [] && s[0] in cs {
      TrimStartSpec(s[1..], cs);
    }
  }

  /** Drops every trailing character that belongs to `cs`. */
  function TrimEnd(s: string, cs: set<char>): (r: string)
    ensures |r| <= |s|
  {
    if s != [] && s[|s| - 1] in cs then TrimEnd(s[..|s| - 1], cs) else s
  }

  /** What `TrimEnd` drops is a run of characters of `cs`, and what it keeps does not end with one. */
  lemma {:induction false} TrimEndSpec(s: string, cs: set<char>)
    ensures TrimEnd(s, cs) == s[..|TrimEnd(s, cs)|]
    ensures TrimEnd(s, cs) == [] || TrimEnd(s, cs)[|TrimEnd(s, cs)| - 1] !in cs
    ensures forall k :: |TrimEnd(s, cs)| <= k < |s| ==> s[k] in cs
  {
    if s != [] && s[|s| - 1] in cs {
      TrimEndSpec(s[..|s| - 1], cs);
    }
  }

  /** Python's `s.strip(chars)`. */
  function StripChars(s: string, cs: set<char>): (r: string)
    ensures |r| <= |s|
  {
    TrimEnd(TrimStart(s, cs), cs)
  }

  /**
   * `strip(chars)` keeps a contiguous piece of `s` that neither starts nor ends
   * with a character of `cs`, and everything it drops belongs to `cs`.
   */
  lemma StripCharsSpec(s: string, cs: set<char>)
    ensures var r := StripChars(s, cs);
      var a := |s| - |TrimStart(s, cs)|;
      (r == [] || (r[0] !in cs && r[|r| - 1] !in cs)) &&
      a + |r| <= |s| && r == s[a..a + |r|] &&
      (forall k :: 0 <= k < a ==> s[k] in cs) && (forall k :: a + |r| <= k < |s| ==> s[k] in cs)
  {
    var t := TrimStart(s, cs);
    var r := TrimEnd(t, cs);
    var a := |s| - |t|;
    TrimStartSpec(s, cs);
    TrimEndSpec(t, cs);
    SuffixPrefix(s, a, |r|);
    if r != [] {
      assert r[0] == t[0];
    }
    forall k | a + |r| <= k < |s|
      ensures s[k] in cs
    {
      assert s[k] == s[a..][k - a];
    }
  }

  /** A prefix of a suffix is a slice. */
  lemma SuffixPrefix(s: string, a: nat, n: nat)
    requires a + n <= |s|
    ensures s[a..][..n] == s[a..a + n]
  {
  }

  /** Python's `s.strip()`. */
  function Strip(s: string): string { StripChars(s, Whitespace) }

  /** A string whose two ends are not whitespace is its own `strip()`. */
  lemma StripUnchanged(s: string)
    requires s == [] || (!IsSpace(s[0]) && !IsSpace(s[|s| - 1]))
    ensures Strip(s) == s
  {
  }

  /** Python's `s.startswith(p)`. */
  predicate StartsWith(s: string, p: string)
  {
    |p| <= |s| && s[..|p|] == p
  }

  /** A line that starts with a longer marker also starts with that marker's own prefix. */
  lemma StartsWithTrans(s: string, p: string, q: string)
    requires StartsWith(s, p) && StartsWith(p, q)
    ensures StartsWith(s, q)
  {
    assert s[..|q|] == s[..|p|][..|q|];
  }

  /** Python's `sub in s`. */
  predicate Contains(s: string, sub: string)
    decreases |s|
  {
    StartsWith(s, sub) || (s != [] && Contains(s[1..], sub))
  }

  /** Length of the longest prefix of `s` free of whitespace. */
  function WordLength(s: string): (n: nat)
    ensures n <= |s|
  {
    if s == [] || IsSpace(s[0]) then 0 else 1 + WordLength(s[1..])
  }

  /** `WordLength` stops at the first whitespace character. */
  lemma {:induction false} WordLengthSpec(s: string)
    ensures NoSpace(s[..WordLength(s)])
    ensures WordLength(s) == |s| || IsSpace(s[WordLength(s)])
  {
    if s != [] && !IsSpace(s[0]) {
      WordLengthSpec(s[1..]);
      assert s[..WordLength(s)] == [s[0]] + s[1..][..WordLength(s[1..])];
    }
  }

  /** Python's `s.split()`: the maximal runs of non-whitespace characters, in order. */
  function Tokens(s: string): (r: seq<string>)
    decreases |s|
  {
    if s == [] then []
    else if IsSpace(s[0]) then Tokens(s[1..])
    else
      var n := WordLength(s);
      [s[..n]] + Tokens(s[n..])
  }

  /** Every token is non-empty and free of whitespace. */
  lemma {:induction false} TokensAreWords(s: string)
    ensures forall k :: 0 <= k < |Tokens(s)| ==> Tokens(s)[k] != [] && NoSpace(Tokens(s)[k])
    decreases |s|
  {
    if s != [] {
      if IsSpace(s[0]) {
        TokensAreWords(s[1..]);
      } else {
        WordLengthSpec(s);
        TokensAreWords(s[WordLength(s)..]);
      }
    }
  }

  /** Python's `s.split(sep)` for a one-character separator: never empty. */
  function SplitOn(s: string, sep: char): (r: seq<string>)
    ensures |r| >= 1
    ensures forall k :: 0 <= k < |r| ==> sep !in r[k]
  {
    if s == [] then [""]
    else
      var rest := SplitOn(s[1..], sep);
      if s[0] == sep then [""] + rest else [[s[0]] + rest[0]] + rest[1..]
  }

  /** Joins pieces with `sep` in between: the inverse of `SplitOn`. */
  function Join(pieces: seq<string>, sep: char): string
    requires |pieces| >= 1
  {
    if |pieces| == 1 then pieces[0] else pieces[0] + [sep] + Join(pieces[1..], sep)
  }

  /** Splitting on a character and joining back with it gives the original text. */
  lemma {:induction false} JoinSplitOn(s: string, sep: char)
    ensures Join(SplitOn(s, sep), sep) == s
  {
    if s != [] {
      JoinSplitOn(s[1..], sep);
      var rest := SplitOn(s[1..], sep);
      if s[0] != sep {
        if |rest| == 1 {
          assert Join(SplitOn(s, sep), sep) == [s[0]] + rest[0];
        } else {
          assert Join(rest, sep) == rest[0] + [sep] + Join(rest[1..], sep);
          assert SplitOn(s, sep)[1..] == rest[1..];
        }
      }
    }
  }

  /** A whitespace-free word followed by whitespace or nothing is one word long. */
  lemma {:induction false} WordLengthOf(w: string, rest: string)
    requires NoSpace(w) && (rest == [] || IsSpace(rest[0]))
    ensures WordLength(w + rest) == |w|
  {
    if w == [] {
      assert w + rest == rest;
    } else {
      assert (w + rest)[1..] == w[1..] + rest;
      WordLengthOf(w[1..], rest);
    }
  }

  /** `split()` undoes `' '.join(words)` for non-empty words without whitespace. */
  lemma {:induction false} TokensJoin(words: seq<string>)
    requires |words| >= 1
    requires forall k :: 0 <= k < |words| ==> words[k] != [] && NoSpace(words[k])
    ensures Tokens(Join(words, ' ')) == words
  {
    var w := words[0];
    var rest := if |words| == 1 then [] else [' '] + Join(words[1..], ' ');
    assert Join(words, ' ') == w + rest;
    WordLengthOf(w, rest);
    assert (w + rest)[..|w|] == w;
    assert (w + rest)[|w|..] == rest;
    if |words| > 1 {
      assert rest[1..] == Join(words[1..], ' ');
      TokensJoin(words[1..]);
      assert words == [w] + words[1..];
    }
  }

  /** Python's `s.replace(c, '')`. */
  function Remove(s: string, c: char): (r: string)
    ensures c !in r
    ensures |r| <= |s|
  {
    if s == [] then [] else (if s[0] == c then [] else [s[0]]) + Remove(s[1..], c)
  }

  /** Only the occurrences of `c` go: every other character keeps its count. */
  lemma {:induction false} RemoveCounts(s: string, c: char)
    ensures multiset(Remove(s, c)) == multiset(s)[c := 0]
  {
    if s != [] {
      assert s == [s[0]] + s[1..];
      RemoveCounts(s[1..], c);
    }
  }

  /** Removing `c` from a concatenation removes it from each part: what is not `c` stays, in order. */
  lemma {:induction false} RemoveAppend(a: string, b: string, c: char)
    ensures Remove(a + b, c) == Remove(a, c) + Remove(b, c)
  {
    if a == [] {
      assert a + b == b;
    } else {
      var ab := a + b;
      assert ab[0] == a[0] && ab[1..] == a[1..] + b;
      RemoveAppend(a[1..], b, c);
      if a[0] != c {
        assert [a[0]] + (Remove(a[1..], c) + Remove(b, c)) == ([a[0]] + Remove(a[1..], c)) + Remove(b, c);
      }
    }
  }

  /** A text without `c` is left as it is. */
  lemma {:induction false} RemoveAbsent(s: string, c: char)
    requires c !in s
    ensures Remove(s, c) == s
  {
    if s != [] {
      assert s == [s[0]] + s[1..];
      RemoveAbsent(s[1..], c);
    }
  }

  /** Python's `s.lower()` on the ASCII letters. */
  function Lower(s: string): (r: string)
    ensures |r| == |s|
  {
    if s == [] then []
    else [if 'A' <= s[0] <= 'Z' then (s[0] as int + 32) as char else s[0]] + Lower(s[1..])
  }

  /** Python's `xs.index(x) if x in xs else d`: the first position of `x`, or `d`. */
  function IndexOr(xs: seq<string>, x: string, d: nat): nat
  {
    if xs == [] then d
    else if xs[0] == x then 0
    else if x in xs[1..] then IndexOr(xs[1..], x, d) + 1
    else d
  }

  /** `IndexOr` finds the first occurrence when there is one, and falls back to `d` otherwise. */
  lemma {:induction false} IndexOrSpec(xs: seq<string>, x: string, d: nat)
    ensures x in xs ==> IndexOr(xs, x, d) < |xs| && xs[IndexOr(xs, x, d)] == x && x !in xs[..IndexOr(xs, x, d)]
    ensures x !in xs ==> IndexOr(xs, x, d) == d
  {
    if xs != [] && xs[0] != x {
      assert x in xs <==> x in xs[1..] by {
        assert xs == [xs[0]] + xs[1..];
      }
      if x in xs[1..] {
        IndexOrSpec(xs[1..], x, d);
        var k := IndexOr(xs[1..], x, d);
        assert xs[..k + 1] == [xs[0]] + xs[1..][..k];
      }
    }
  }

  /** `strip` only cuts characters off the ends, so a character absent from `s` stays absent. */
  lemma StripCharsKeeps(s: string, cs: set<char>, c: char)
    requires c !in s
    ensures c !in StripChars(s, cs)
  {
    StripCharsSpec(s, cs);
  }

  /** `strip()` is idempotent: what it returns has no whitespace at either end. */
  lemma StripIdempotent(s: string)
    ensures Strip(Strip(s)) == Strip(s)
  {
    StripCharsSpec(s, Whitespace);
    StripUnchanged(Strip(s));
  }

  /** `replace(c, '')` never introduces a character. */
  lemma {:induction false} RemoveKeeps(s: string, c: char, d: char)
    requires d !in s
    ensures d !in Remove(s, c)
  {
    if s != [] {
      RemoveKeeps(s[1..], c, d);
    }
  }

  /** `replace(c, '')` keeps a last character other than `c` in last place. */
  lemma {:induction false} RemoveLast(s: string, c: char)
    requires s != [] && s[|s| - 1] != c
    ensures Remove(s, c) != [] && Remove(s, c)[|Remove(s, c)| - 1] == s[|s| - 1]
  {
    if |s| > 1 {
      RemoveLast(s[1..], c);
    }
  }

  /** Removing spaces from a stripped string leaves it stripped: its two ends are not spaces. */
  lemma RemoveSpacesStripped(s: string)
    requires Strip(s) == s
    ensures Strip(Remove(s, ' ')) == Remove(s, ' ')
  {
    StripCharsSpec(s, Whitespace);
    if s != [] {
      RemoveLast(s, ' ');
      StripUnchanged(Remove(s, ' '));
    }
  }

  /** `split(sep)` never introduces a character. */
  lemma {:induction false} SplitOnKeeps(s: string, sep: char, c: char)
    requires c !in s
    ensures forall k :: 0 <= k < |SplitOn(s, sep)| ==> c !in SplitOn(s, sep)[k]
  {
    if s != [] {
      SplitOnKeeps(s[1..], sep, c);
    }
  }
}
