/** The .NET string operations the job relies on: `String.Replace` with a
    one-character old value, and `String.IsNullOrWhiteSpace`. */
module CSharpStrings {

  /** `s.Replace(c, t)` for a one-character old value `c`: every occurrence
      of `c`, scanning left to right, is replaced by `t`. */
  function Replace(s: string, c: char, t: string): string
    decreases |s|
  {
    if s == [] then []
    else (if s[0] == c then t else [s[0]]) + Replace(s[1..], c, t)
  }

  /** Number of occurrences of `c` in `s`. */
  function Count(s: string, c: char): nat
    decreases |s|
  {
    if s == [] then 0 else (if s[0] == c then 1 else 0) + Count(s[1..], c)
  }

  /** `s` with every character of `drop` left out, the others kept in order:
      an independent description of a chain of `Replace(x, "")` calls. */
  function Without(s: string, drop: set<char>): string
    decreases |s|
  {
    if s == [] then []
    else (if s[0] in drop then [] else [s[0]]) + Without(s[1..], drop)
  }

  /** Each occurrence of `c` grows or shrinks the string by `|t| - 1`. */
  lemma {:induction false} ReplaceLength(s: string, c: char, t: string)
    ensures |Replace(s, c, t)| == |s| + Count(s, c) * (|t| - 1)
    decreases |s|
  {
    if s != [] {
      ReplaceLength(s[1..], c, t);
    }
  }

  /** After the replacement no `c` is left, provided `t` brings none in. */
  lemma {:induction false} ReplaceRemoves(s: string, c: char, t: string)
    requires c !in t
    ensures c !in Replace(s, c, t)
    decreases |s|
  {
    if s != [] {
      ReplaceRemoves(s[1..], c, t);
    }
  }

  /** A character absent from both `s` and `t` is absent from the result. */
  lemma {:induction false} ReplaceKeepsAbsent(s: string, c: char, t: string, x: char)
    requires x !in s && x !in t
    ensures x !in Replace(s, c, t)
    decreases |s|
  {
    if s != [] {
      ReplaceKeepsAbsent(s[1..], c, t, x);
    }
  }

  /** Replacing a character that does not occur changes nothing. */
  lemma {:induction false} ReplaceAbsent(s: string, c: char, t: string)
    requires c !in s
    ensures Replace(s, c, t) == s
    decreases |s|
  {
    if s != [] {
      ReplaceAbsent(s[1..], c, t);
    }
  }

  /** Replacing one character by one character acts position by position. */
  lemma {:induction false} ReplaceOneByOne(s: string, c: char, d: char)
    ensures |Replace(s, c, [d])| == |s|
    ensures forall i :: 0 <= i < |s| ==> Replace(s, c, [d])[i] == (if s[i] == c then d else s[i])
    decreases |s|
  {
    if s != [] {
      ReplaceOneByOne(s[1..], c, d);
      var r := Replace(s, c, [d]);
      assert r == [if s[0] == c then d else s[0]] + Replace(s[1..], c, [d]);
      forall i | 0 < i < |s|
        ensures r[i] == (if s[i] == c then d else s[i])
      {
        assert r[i] == Replace(s[1..], c, [d])[i - 1];
      }
    }
  }

  /** Deleting `a` and then `b` keeps exactly the characters other than `a` and `b`. */
  lemma {:induction false} DeleteTwice(s: string, a: char, b: char)
    ensures Replace(Replace(s, a, ""), b, "") == Without(s, {a, b})
    decreases |s|
  {
    if s != [] {
      DeleteTwice(s[1..], a, b);
      var head := if s[0] == a then "" else [s[0]];
      assert Replace(s, a, "") == head + Replace(s[1..], a, "");
      ReplaceConcat(head, Replace(s[1..], a, ""), b, "");
    }
  }

  /** `Replace` distributes over concatenation. */
  lemma {:induction false} ReplaceConcat(s: string, u: string, c: char, t: string)
    ensures Replace(s + u, c, t) == Replace(s, c, t) + Replace(u, c, t)
    decreases |s|
  {
    if s != [] {
      assert (s + u)[1..] == s[1..] + u;
      ReplaceConcat(s[1..], u, c, t);
    } else {
      assert s + u == u;
    }
  }

  /** What `Without` leaves: only characters of `s`, none of them dropped,
      never more than `s` had, and all of `s` when nothing is to be dropped. */
  lemma {:induction false} WithoutProperties(s: string, drop: set<char>)
    ensures forall x :: x in drop ==> x !in Without(s, drop)
    ensures forall x :: x in Without(s, drop) ==> x in s
    ensures |Without(s, drop)| <= |s|
    ensures (forall i :: 0 <= i < |s| ==> s[i] !in drop) ==> Without(s, drop) == s
    decreases |s|
  {
    if s != [] {
      WithoutProperties(s[1..], drop);
      if forall i :: 0 <= i < |s| ==> s[i] !in drop {
        assert forall i :: 0 <= i < |s[1..]| ==> s[1..][i] !in drop by {
          forall i | 0 <= i < |s[1..]| ensures s[1..][i] !in drop {
            assert s[1..][i] == s[i + 1];
          }
        }
      }
    }
  }

  /** `Char.IsWhiteSpace`: the Unicode space, line and paragraph separators,
      the controls U+0009 to U+000D, and U+0085. */
  predicate IsWhiteSpace(ch: char)
  {
    || ch == ' ' || ('\t' <= ch <= '\r') || ch == '\U{0085}' || ch == '\U{00A0}'
    || ch == '\U{1680}' || ('\U{2000}' <= ch <= '\U{200A}')
    || ch == '\U{2028}' || ch == '\U{2029}' || ch == '\U{202F}' || ch == '\U{205F}'
    || ch == '\U{3000}'
  }

  /** `String.IsNullOrWhiteSpace` for a non-null string: empty or whitespace only. */
  predicate IsNullOrWhiteSpace(s: string)
  {
    forall i :: 0 <= i < |s| ==> IsWhiteSpace(s[i])
  }
}
