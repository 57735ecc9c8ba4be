/** The Python string operations the workflow relies on: `str.strip()`,
    `str.split("\n")` and the slice `s[:n]`. Strings are sequences of
    Unicode scalar values. */
module Text {
  import opened Sequences

  /** The characters for which Python's `str.isspace()` holds, which are the
      characters `str.strip()` removes when called without an argument. */
  predicate IsSpace(c: char) {
    c == ' ' || ('\t' <= c <= '\r') || ('\U{1C}' <= c <= '\U{1F}') ||
    c == '\U{85}' || c == '\U{A0}' || c == '\U{1680}' ||
    ('\U{2000}' <= c <= '\U{200A}') || c == '\U{2028}' || c == '\U{2029}' ||
    c == '\U{202F}' || c == '\U{205F}' || c == '\U{3000}'
  }

  predicate AllSpace(s: string) {
    forall i :: 0 <= i < |s| ==> IsSpace(s[i])
  }

  /** `s.lstrip()`: the longest suffix of `s` that does not start with whitespace. */
  function TrimStart(s: string): (r: string)
    ensures |r| <= |s| && r == s[|s| - |r|..]
    ensures AllSpace(s[..|s| - |r|])
    ensures r == [] || !IsSpace(r[0])
  {
    if s != [] && IsSpace(s[0]) then
      var r := TrimStart(s[1..]);
      assert s[..|s| - |r|] == [s[0]] + s[1..][..|s| - 1 - |r|];
      r
    else s
  }

  /** `s.rstrip()`: the longest prefix of `s` that does not end with whitespace. */
  function TrimEnd(s: string): (r: string)
    ensures |r| <= |s| && r == s[..|r|]
    ensures AllSpace(s[|r|..])
    ensures r == [] || !IsSpace(r[|r| - 1])
  {
    if s != [] && IsSpace(s[|s| - 1]) then
      var r := TrimEnd(s[..|s| - 1]);
      assert s[|r|..] == s[..|s| - 1][|r|..] + [s[|s| - 1]];
      r
    else s
  }

  /** `s.strip()`: `s` without its leading and trailing whitespace. The result
      is empty or neither starts nor ends with whitespace. */
  function Strip(s: string): (r: string)
    ensures |r| <= |s|
    ensures r == [] || (!IsSpace(r[0]) && !IsSpace(r[|r| - 1]))
  {
    TrimEnd(TrimStart(s))
  }

  /** Stripping leaves nothing exactly when the text is all whitespace. */
  lemma StripEmptyIffBlank(s: string)
    ensures Strip(s) == [] <==> AllSpace(s)
  {
    var t := TrimStart(s);
    if Strip(s) == [] {
      assert s == s[..|s| - |t|] + t;
      assert t[0..] == t;
    }
  }

  /** Stripping is idempotent. */
  lemma StripIdempotent(s: string)
    ensures Strip(Strip(s)) == Strip(s)
  {
    var r := Strip(s);
    if r != [] {
      assert TrimStart(r) == r;
      assert TrimEnd(r) == r;
    }
  }

  /** The stripped text is a contiguous piece of the original, starting at
      offset `k`, with only whitespace cut away on either side. */
  lemma StripIsInfix(s: string) returns (k: nat)
    ensures k + |Strip(s)| <= |s| && Strip(s) == s[k..k + |Strip(s)|]
    ensures AllSpace(s[..k]) && AllSpace(s[k + |Strip(s)|..])
  {
    var t := TrimStart(s);
    k := |s| - |t|;
    TrimmedSlice(s, t, Strip(s), k);
  }

  /** Helper: `r`, a prefix of the suffix `t == s[k..]`, sits between two
      blank pieces of `s` when it does in `t`. */
  lemma TrimmedSlice(s: string, t: string, r: string, k: nat)
    requires k <= |s| && t == s[k..] && |r| <= |t| && r == t[..|r|]
    requires AllSpace(s[..k]) && AllSpace(t[|r|..])
    ensures k + |r| <= |s| && r == s[k..k + |r|]
    ensures AllSpace(s[..k]) && AllSpace(s[k + |r|..])
  {
    SliceOfSuffix(s, t, r, k);
  }

  /** Stripping ignores a whitespace character in front of the text. */
  lemma StripSpaceCons(c: char, s: string)
    requires IsSpace(c)
    ensures Strip([c] + s) == Strip(s)
  {
    assert ([c] + s)[1..] == s;
  }

  /** `lstrip` of a text with one more whitespace character at its end: all
      of it goes when the text was blank, otherwise the character stays. */
  lemma {:induction false} TrimStartSpaceSnoc(s: string, c: char)
    requires IsSpace(c)
    ensures TrimStart(s + [c]) == if AllSpace(s) then [] else TrimStart(s) + [c]
    decreases |s|
  {
    var t := s + [c];
    if s == [] {
      assert t == [c] && t[1..] == [];
    } else if IsSpace(s[0]) {
      assert t[0] == s[0] && t[1..] == s[1..] + [c];
      TrimStartSpaceSnoc(s[1..], c);
      AllSpaceTail(s);
    } else {
      assert t[0] == s[0];
      assert !IsSpace(s[0]);
    }
  }

  /** A text that starts with whitespace is blank exactly when the rest is. */
  lemma AllSpaceTail(s: string)
    requires s != [] && IsSpace(s[0])
    ensures AllSpace(s) <==> AllSpace(s[1..])
  {
    if AllSpace(s[1..]) {
      forall i | 0 <= i < |s| ensures IsSpace(s[i]) {
        if i > 0 { assert s[i] == s[1..][i - 1]; }
      }
    }
  }

  /** Stripping ignores a whitespace character at the end of the text. */
  lemma StripSpaceSnoc(s: string, c: char)
    requires IsSpace(c)
    ensures Strip(s + [c]) == Strip(s)
  {
    TrimStartSpaceSnoc(s, c);
    if AllSpace(s) {
      StripEmptyIffBlank(s);
    } else {
      var t := TrimStart(s);
      assert (t + [c])[..|t|] == t;
    }
  }

  /** Helper: taking a prefix `r` of the suffix `t == s[k..]` is taking a
      slice of `s`. */
  lemma SliceOfSuffix<T>(s: seq<T>, t: seq<T>, r: seq<T>, k: nat)
    requires k <= |s| && t == s[k..] && |r| <= |t| && r == t[..|r|]
    ensures k + |r| <= |s| && r == s[k..k + |r|] && s[k + |r|..] == t[|r|..]
  {
  }

  /** Python's `s.split("\n")`: the pieces of `s` between line breaks. There is
      always at least one piece, and no piece contains a line break. */
  function SplitLines(s: string): (lines: seq<string>)
    ensures |lines| >= 1
    ensures forall i :: 0 <= i < |lines| ==> '\n' !in lines[i]
  {
    if s == [] then [""]
    else
      var rest := SplitLines(s[1..]);
      if s[0] == '\n' then [""] + rest
      else [[s[0]] + rest[0]] + rest[1..]
  }

  /** The pieces of a split after one more character `c` has been read: a line
      break starts a new, empty piece, and any other character extends the
      last piece. */
  function WithChar(lines: seq<string>, c: char): (r: seq<string>)
    requires |lines| >= 1
    ensures |r| == if c == '\n' then |lines| + 1 else |lines|
    ensures r[..|lines| - 1] == lines[..|lines| - 1]
  {
    if c == '\n' then lines + [""]
    else lines[..|lines| - 1] + [lines[|lines| - 1] + [c]]
  }

  /** Splitting a text with one more character at its end is splitting the
      text and then reading that character. */
  lemma {:induction false} SplitLinesSnoc(s: string, c: char)
    ensures SplitLines(s + [c]) == WithChar(SplitLines(s), c)
    decreases |s|
  {
    if s == [] {
      SplitLinesOneChar(c);
      assert s + [c] == [c];
    } else {
      SplitLinesSnoc(s[1..], c);
      SplitLinesSnocStep(s, c);
    }
  }

  lemma SplitLinesOneChar(c: char)
    ensures SplitLines([c]) == WithChar(SplitLines([]), c)
  {
    var empty := SplitLines([]);
    assert [c][1..] == [];
    assert empty == [[]];
    if c != '\n' {
      assert [c] + empty[0] == empty[0] + [c];
      assert empty[1..] == [] && empty[..0] == [];
    }
  }

  lemma SplitLinesSnocStep(s: string, c: char)
    requires s != []
    requires SplitLines(s[1..] + [c]) == WithChar(SplitLines(s[1..]), c)
    ensures SplitLines(s + [c]) == WithChar(SplitLines(s), c)
  {
    if s[0] == '\n' {
      SnocAfterBreak(s, c);
    } else {
      SnocAfterChar(s, c);
    }
  }

  lemma SnocAfterBreak(s: string, c: char)
    requires s != [] && s[0] == '\n'
    requires SplitLines(s[1..] + [c]) == WithChar(SplitLines(s[1..]), c)
    ensures SplitLines(s + [c]) == WithChar(SplitLines(s), c)
  {
    var t := s + [c];
    assert t[0] == s[0] && t[1..] == s[1..] + [c];
    var rest := SplitLines(s[1..]);
    calc {
      SplitLines(t);
      [""] + SplitLines(t[1..]);
      [""] + WithChar(rest, c);
      { WithCharAfterBreak(rest, c); }
      WithChar([""] + rest, c);
    }
  }

  lemma SnocAfterChar(s: string, c: char)
    requires s != [] && s[0] != '\n'
    requires SplitLines(s[1..] + [c]) == WithChar(SplitLines(s[1..]), c)
    ensures SplitLines(s + [c]) == WithChar(SplitLines(s), c)
  {
    var t := s + [c];
    assert t[0] == s[0] && t[1..] == s[1..] + [c];
    var rest := SplitLines(s[1..]);
    var rest' := WithChar(rest, c);
    calc {
      SplitLines(t);
      [[s[0]] + rest'[0]] + rest'[1..];
      { WithCharAfterChar(s[0], rest, c); }
      WithChar([[s[0]] + rest[0]] + rest[1..], c);
    }
  }

  lemma WithCharAfterBreak(rest: seq<string>, c: char)
    requires |rest| >= 1
    ensures WithChar([""] + rest, c) == [""] + WithChar(rest, c)
  {
    var n := |rest|;
    if c == '\n' {
      AppendAssoc([""], rest, [""]);
    } else {
      assert ([""] + rest)[..n] == [""] + rest[..n - 1];
      assert ([""] + rest)[n] == rest[n - 1];
      AppendAssoc([""], rest[..n - 1], [rest[n - 1] + [c]]);
    }
  }

  lemma WithCharAfterChar(x: char, rest: seq<string>, c: char)
    requires |rest| >= 1
    ensures var rest' := WithChar(rest, c);
            WithChar([[x] + rest[0]] + rest[1..], c) == [[x] + rest'[0]] + rest'[1..]
  {
    var n := |rest|;
    var first := [x] + rest[0];
    var lines := [first] + rest[1..];
    var rest' := WithChar(rest, c);
    if c == '\n' {
      assert rest'[0] == rest[0] && rest'[1..] == rest[1..] + [""];
      AppendAssoc([first], rest[1..], [""]);
    } else if n == 1 {
      assert rest' == [rest[0] + [c]];
      assert lines == [first];
      AppendAssoc([x], rest[0], [c]);
    } else {
      assert rest'[0] == rest[0];
      assert rest'[1..] == rest[1..n - 1] + [rest[n - 1] + [c]];
      assert lines[..n - 1] == [first] + rest[1..n - 1];
      assert lines[n - 1] == rest[n - 1];
      AppendAssoc([first], rest[1..n - 1], [rest[n - 1] + [c]]);
    }
  }

  /** Python's `"\n".join(lines)`. */
  function JoinLines(lines: seq<string>): string {
    if lines == [] then ""
    else if |lines| == 1 then lines[0]
    else lines[0] + "\n" + JoinLines(lines[1..])
  }

  /** Joining the pieces of a split gives back the original text. */
  lemma {:induction false} JoinSplitLines(s: string)
    ensures JoinLines(SplitLines(s)) == s
  {
    if s != [] {
      var rest := SplitLines(s[1..]);
      JoinSplitLines(s[1..]);
      if s[0] == '\n' {
        assert SplitLines(s) == [""] + rest;
        assert ([""] + rest)[1..] == rest;
      } else {
        var lines := [[s[0]] + rest[0]] + rest[1..];
        assert SplitLines(s) == lines;
        if |rest| == 1 {
          assert rest == [rest[0]];
        } else {
          var tail := JoinLines(rest[1..]);
          assert lines[1..] == rest[1..];
          assert JoinLines(rest) == rest[0] + "\n" + tail;
          AppendAssoc([s[0]], rest[0] + "\n", tail);
          AppendAssoc([s[0]], rest[0], "\n");
          assert s == [s[0]] + s[1..];
        }
      }
    }
  }

  /** Splitting a join of break-free pieces gives back the pieces. */
  lemma {:induction false} SplitJoinLines(lines: seq<string>)
    requires |lines| >= 1
    requires forall i :: 0 <= i < |lines| ==> '\n' !in lines[i]
    ensures SplitLines(JoinLines(lines)) == lines
    decreases |JoinLines(lines)|
  {
    var first := lines[0];
    if first == [] {
      if |lines| > 1 {
        var tail := lines[1..];
        assert JoinLines(lines) == "\n" + JoinLines(tail);
        assert ("\n" + JoinLines(tail))[1..] == JoinLines(tail);
        SplitJoinLines(tail);
        assert lines == [""] + tail;
      }
    } else {
      var shorter := [first[1..]] + lines[1..];
      forall i | 0 <= i < |shorter| ensures '\n' !in shorter[i] {
        if i == 0 {
          assert forall c :: c in first[1..] ==> c in first;
        } else {
          assert shorter[i] == lines[i];
        }
      }
      assert JoinLines(lines) == [first[0]] + JoinLines(shorter) by {
        assert first == [first[0]] + first[1..];
        if |lines| > 1 {
          var rest := JoinLines(lines[1..]);
          assert shorter[1..] == lines[1..];
          assert JoinLines(shorter) == first[1..] + "\n" + rest;
          AppendAssoc([first[0]], first[1..] + "\n", rest);
          AppendAssoc([first[0]], first[1..], "\n");
        }
      }
      assert ([first[0]] + JoinLines(shorter))[1..] == JoinLines(shorter);
      SplitJoinLines(shorter);
      assert first[0] != '\n' by { assert first[0] in first; }
      assert lines == [[first[0]] + first[1..]] + shorter[1..];
    }
  }

  /** Python's slice `s[:n]` for `n >= 0`: the first `n` characters, or all of
      `s` when it is shorter. */
  function Truncate(s: string, n: nat): (r: string)
    ensures |r| == if |s| <= n then |s| else n
    ensures r == s[..|r|]
  {
    if |s| <= n then s else s[..n]
  }
}
