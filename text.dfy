/** String operations of the .NET base library that the plugin relies on, with the
    ordinal (character by character) semantics the plugin's inputs need. */
module Text {

  /** `s.StartsWith(prefix)` */
  predicate StartsWith(s: string, prefix: string)
  {
    |prefix| <= |s| && s[..|prefix|] == prefix
  }

  /** `s.EndsWith(suffix)` */
  predicate EndsWith(s: string, suffix: string)
  {
    |suffix| <= |s| && s[|s| - |suffix|..] == suffix
  }

  /** `s.Contains(part)`: `part` occurs somewhere in `s`. */
  predicate Contains(s: string, part: string)
  {
    StartsWith(s, part) || (s != [] && Contains(s[1..], part))
  }

  /** `part` occurs in `s` exactly when `s` has a suffix that starts with it. */
  lemma {:induction false} ContainsAt(s: string, part: string)
    decreases |s|
    ensures Contains(s, part) <==> exists i :: 0 <= i <= |s| && StartsWith(s[i..], part)
  {
    if s == [] {
      assert s[0..] == s;
    } else {
      ContainsAt(s[1..], part);
      if Contains(s, part) {
        if StartsWith(s, part) {
          assert s[0..] == s;
        } else {
          var j :| 0 <= j <= |s[1..]| && StartsWith(s[1..][j..], part);
          assert s[1..][j..] == s[j + 1..];
        }
      }
      if exists i :: 0 <= i <= |s| && StartsWith(s[i..], part) {
        var i :| 0 <= i <= |s| && StartsWith(s[i..], part);
        if i == 0 {
          assert s[0..] == s;
        } else {
          assert s[i..] == s[1..][i - 1..];
        }
      }
    }
  }

  /** `s.Replace(from, to)` for one-character patterns: every occurrence is replaced. */
  function ReplaceChar(s: string, from: char, to: char): (r: string)
    ensures |r| == |s|
    ensures forall i :: 0 <= i < |s| ==> r[i] == (if s[i] == from then to else s[i])
  {
    if s == [] then [] else [if s[0] == from then to else s[0]] + ReplaceChar(s[1..], from, to)
  }

  /** Replacing back undoes a replacement, provided the replacement character did not
      occur in the original text. */
  lemma ReplaceCharInverse(s: string, from: char, to: char)
    requires to !in s
    ensures ReplaceChar(ReplaceChar(s, from, to), to, from) == s
  {
    var t := ReplaceChar(ReplaceChar(s, from, to), to, from);
    forall i | 0 <= i < |s| ensures t[i] == s[i] {
      assert s[i] != to;
    }
  }

  /** `s.Split(c)[0]`: the text before the first occurrence of `c`, or all of `s`. */
  function BeforeFirst(s: string, c: char): (r: string)
    ensures StartsWith(s, r)
    ensures c !in r
    ensures |r| < |s| ==> s[|r|] == c
  {
    if s == [] || s[0] == c then [] else [s[0]] + BeforeFirst(s[1..], c)
  }
  /** `char.IsWhiteSpace`: the control characters U+0009 to U+000D and U+0085, and the
      Unicode space, line and paragraph separators. */
  predicate IsWhiteSpace(c: char)
  {
    c == ' ' || '\t' <= c <= '\r' || c == '\U{0085}' || c == '\U{00A0}' || c == '\U{1680}'
    || '\U{2000}' <= c <= '\U{200A}' || c == '\U{2028}' || c == '\U{2029}'
    || c == '\U{202F}' || c == '\U{205F}' || c == '\U{3000}'
  }

  /** `s.TrimStart()`. */
  function TrimStart(s: string): string
  {
    if s != [] && IsWhiteSpace(s[0]) then TrimStart(s[1..]) else s
  }

  /** `s.TrimEnd()`. */
  function TrimEnd(s: string): string
  {
    if s != [] && IsWhiteSpace(s[|s| - 1]) then TrimEnd(s[..|s| - 1]) else s
  }

  /** `TrimStart` keeps the longest suffix that does not start with white space: what it
      drops is all white space. */
  lemma {:induction false} TrimStartSuffix(s: string)
    ensures var r := TrimStart(s);
      && |r| <= |s| && r == s[|s| - |r|..]
      && (r == [] || !IsWhiteSpace(r[0]))
      && forall i :: 0 <= i < |s| - |r| ==> IsWhiteSpace(s[i])
  {
    if s != [] && IsWhiteSpace(s[0]) {
      var t := s[1..];
      TrimStartSuffix(t);
      var r := TrimStart(t);
      assert TrimStart(s) == r;
      assert t[|t| - |r|..] == s[|s| - |r|..];
      forall i | 0 <= i < |s| - |r| ensures IsWhiteSpace(s[i]) {
        if i > 0 {
          assert s[i] == t[i - 1];
        }
      }
    }
  }

  /** `TrimEnd` keeps the longest prefix that does not end with white space: what it drops
      is all white space. */
  lemma {:induction false} TrimEndPrefix(s: string)
    ensures var r := TrimEnd(s);
      && |r| <= |s| && r == s[..|r|]
      && (r == [] || !IsWhiteSpace(r[|r| - 1]))
      && forall i :: |r| <= i < |s| ==> IsWhiteSpace(s[i])
  {
    if s != [] && IsWhiteSpace(s[|s| - 1]) {
      var t := s[..|s| - 1];
      TrimEndPrefix(t);
      var r := TrimEnd(t);
      assert TrimEnd(s) == r;
      assert t[..|r|] == s[..|r|];
      forall i | |r| <= i < |s| ensures IsWhiteSpace(s[i]) {
        if i < |t| {
          assert s[i] == t[i];
        }
      }
    }
  }

  /** `s.Trim()`: white space removed from both ends. */
  function Trim(s: string): string
  {
    TrimEnd(TrimStart(s))
  }

  /** White space in front of a text that does not start with white space is removed,
      and nothing more. */
  lemma {:induction false} TrimStartPadded(before: string, u: string)
    requires forall i :: 0 <= i < |before| ==> IsWhiteSpace(before[i])
    requires u == [] || !IsWhiteSpace(u[0])
    ensures TrimStart(before + u) == u
    decreases |before|
  {
    if before != [] {
      assert (before + u)[1..] == before[1..] + u;
      TrimStartPadded(before[1..], u);
    } else {
      assert before + u == u;
    }
  }

  /** White space after a text that does not end with white space is removed, and
      nothing more. */
  lemma {:induction false} TrimEndPadded(u: string, after: string)
    requires forall i :: 0 <= i < |after| ==> IsWhiteSpace(after[i])
    requires u == [] || !IsWhiteSpace(u[|u| - 1])
    ensures TrimEnd(u + after) == u
    decreases |after|
  {
    if after != [] {
      var n := |after| - 1;
      assert (u + after)[..|u + after| - 1] == u + after[..n];
      TrimEndPadded(u, after[..n]);
    } else {
      assert u + after == u;
    }
  }

  /** Trimming a text padded on both sides with white space gives back the text, when
      the text itself neither starts nor ends with white space; white space alone trims
      to nothing. */
  lemma TrimPadded(before: string, t: string, after: string)
    requires forall i :: 0 <= i < |before| ==> IsWhiteSpace(before[i])
    requires forall i :: 0 <= i < |after| ==> IsWhiteSpace(after[i])
    requires t == [] || (!IsWhiteSpace(t[0]) && !IsWhiteSpace(t[|t| - 1]))
    ensures Trim(before + t + after) == t
  {
    if t == [] {
      var all := before + after;
      assert before + t + after == all + [];
      TrimStartPadded(all, []);
    } else {
      assert before + t + after == before + (t + after);
      TrimStartPadded(before, t + after);
      TrimEndPadded(t, after);
    }
  }

}
