/** The string operations the workers share. */
module Strings {
  /** s.slice(0, n) */
  function Take(s: string, n: nat): string {
    if |s| <= n then s else s[..n]
  }

  /** s.replace(/-/g, '') */
  function WithoutHyphens(s: string): string {
    if s == "" then "" else (if s[0] == '-' then "" else [s[0]]) + WithoutHyphens(s[1..])
  }

  /** s.includes(part) */
  predicate Includes(s: string, part: string) {
    |part| <= |s| && (s[..|part|] == part || (s != "" && Includes(s[1..], part)))
  }

  /** What follows the last slash. */
  function LastSegment(s: string): string {
    if s == "" || s[|s|-1] == '/' then "" else LastSegment(s[..|s|-1]) + [s[|s|-1]]
  }

  // ---------- What they mean ----------

  /** s is part with something in front and something behind. */
  ghost predicate IsAround(s: string, pre: string, part: string, post: string) {
    s == pre + part + post
  }

  ghost predicate Contains(s: string, part: string) {
    exists pre, post :: IsAround(s, pre, part, post)
  }

  lemma {:induction false} ContainedIsIncluded(pre: string, part: string, post: string)
    ensures Includes(pre + part + post, part)
  {
    var s := pre + part + post;
    if pre == "" {
      assert s[..|part|] == part;
    } else {
      ContainedIsIncluded(pre[1..], part, post);
      assert s[1..] == pre[1..] + part + post;
    }
  }

  lemma {:induction false} IncludedIsContained(s: string, part: string) returns (pre: string, post: string)
    requires Includes(s, part)
    ensures s == pre + part + post
  {
    if s[..|part|] == part {
      pre, post := "", s[|part|..];
    } else {
      pre, post := IncludedIsContained(s[1..], part);
      pre := [s[0]] + pre;
      assert s == [s[0]] + s[1..];
    }
  }

  lemma IncludesIsContains(s: string, part: string)
    ensures Includes(s, part) <==> Contains(s, part)
  {
    if Includes(s, part) {
      var pre, post := IncludedIsContained(s, part);
      assert IsAround(s, pre, part, post);
    }
    if Contains(s, part) {
      var pre, post :| IsAround(s, pre, part, post);
      ContainedIsIncluded(pre, part, post);
    }
  }

  /** Only the empty string has nothing else around it. */
  lemma EmptyContains(part: string)
    ensures Contains("", part) <==> part == ""
  {
    IncludesIsContains("", part);
  }

  lemma {:induction false} SegmentBehindSlash(pre: string, segment: string)
    requires (pre == "" || pre[|pre|-1] == '/') && '/' !in segment
    ensures LastSegment(pre + segment) == segment
  {
    var s := pre + segment;
    if segment == "" {
      assert s == pre;
    } else {
      var last := |segment| - 1;
      SegmentBehindSlash(pre, segment[..last]);
      assert s[..|s|-1] == pre + segment[..last] && s[|s|-1] == segment[last];
    }
  }

  lemma FirstIsKept(s: string)
    requires s != ""
    ensures WithoutHyphens(s) == (if s[0] == '-' then "" else [s[0]]) + WithoutHyphens(s[1..])
  {
  }

  lemma NothingLeft()
    ensures WithoutHyphens("") == "" && WithoutHyphens("-") == ""
  {
    assert "-"[1..] == "";
  }

  lemma {:induction false} HyphensOfConcat(s: string, t: string)
    ensures WithoutHyphens(s + t) == WithoutHyphens(s) + WithoutHyphens(t)
  {
    hide WithoutHyphens;
    if s == "" {
      NothingLeft();
      assert s + t == t;
    } else {
      HyphensOfConcat(s[1..], t);
      FirstIsKept(s);
      FirstIsKept(s + t);
      assert (s + t)[1..] == s[1..] + t && (s + t)[0] == s[0];
    }
  }

  lemma {:induction false} NothingToDrop(s: string)
    requires '-' !in s
    ensures WithoutHyphens(s) == s
  {
    if s != "" {
      assert s == [s[0]] + s[1..] && s[0] in s;
      NothingToDrop(s[1..]);
    }
  }

  /** Dropping hyphens keeps everything else in order. */
  lemma HyphensAreDropped(s: string, rest: string)
    requires '-' !in s
    ensures WithoutHyphens(s + rest) == s + WithoutHyphens(rest)
    ensures WithoutHyphens(s + ("-" + rest)) == s + WithoutHyphens(rest)
  {
    hide WithoutHyphens;
    NothingToDrop(s);
    NothingLeft();
    HyphensOfConcat(s, rest);
    HyphensOfConcat("-", rest);
    HyphensOfConcat(s, "-" + rest);
  }

  /** Cutting to n characters keeps the first n, or all of them. */
  lemma CutKeepsStart(s: string, rest: string)
    ensures Take(s + rest, |s|) == s && Take(s, |s| + |rest|) == s
  {
    assert (s + rest)[..|s|] == s;
  }

  // ---------- What stands between separators ----------

  /** What stands before the first separator, or everything. */
  function Before(s: string, separator: char): string {
    if s == "" || s[0] == separator then "" else [s[0]] + Before(s[1..], separator)
  }

  /** What stands behind it, or nothing. */
  function Behind(s: string, separator: char): (rest: string)
    ensures separator in s ==> |rest| < |s|
  {
    if s == "" then "" else if s[0] == separator then s[1..] else Behind(s[1..], separator)
  }

  lemma {:induction false} SplitAtSeparator(part: string, separator: char, rest: string)
    requires separator !in part
    ensures var s := part + ([separator] + rest); Before(s, separator) == part && Behind(s, separator) == rest
    ensures Before(part, separator) == part
  {
    var s := part + ([separator] + rest);
    if part != "" {
      assert part == [part[0]] + part[1..] && part[0] in part;
      SplitAtSeparator(part[1..], separator, rest);
      assert s[1..] == part[1..] + ([separator] + rest) && s[0] == part[0];
    } else {
      assert s == [separator] + rest;
    }
  }
}
