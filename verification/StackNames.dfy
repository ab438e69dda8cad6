/** Stack names: the sanitiser, and the names of agents and gateways that carry their instance's suffix. */
module StackNames {
  import opened Strings

  predicate IsLetter(ch: char) {
    'a' <= ch <= 'z' || 'A' <= ch <= 'Z'
  }

  predicate IsSafe(ch: char) {
    IsLetter(ch) || '0' <= ch <= '9' || ch == '-'
  }

  predicate IsSpace(ch: char) {
    ch == ' ' || '\t' <= ch <= '\r' || ch == '\U{00A0}' || ch == '\U{1680}' || '\U{2000}' <= ch <= '\U{200A}'
    || ch == '\U{2028}' || ch == '\U{2029}' || ch == '\U{202F}' || ch == '\U{205F}' || ch == '\U{3000}' || ch == '\U{FEFF}'
  }

  function StripLeft(s: string, p: char -> bool): string {
    if s != "" && p(s[0]) then StripLeft(s[1..], p) else s
  }

  function StripRight(s: string, p: char -> bool): string {
    if s != "" && p(s[|s|-1]) then StripRight(s[..|s|-1], p) else s
  }

  function Trim(s: string): string {
    StripRight(StripLeft(s, IsSpace), IsSpace)
  }

  function Replace(s: string): string {
    seq(|s|, i requires 0 <= i < |s| => if IsSafe(s[i]) then s[i] else '-')
  }

  /** Runs of hyphens become one. */
  function Collapse(s: string): string {
    if |s| <= 1 then s
    else if s[0] == '-' && s[1] == '-' then Collapse(s[1..])
    else [s[0]] + Collapse(s[1..])
  }

  function IsHyphen(ch: char): bool {
    ch == '-'
  }

  function Stripped(s: string): string {
    StripRight(StripLeft(s, IsHyphen), IsHyphen)
  }

  function Normalize(raw: string): string {
    var safe := Stripped(Collapse(Replace(Trim(raw))));
    var normalized := if safe == "" then "Agent" else safe;
    if IsLetter(normalized[0]) then normalized else "A" + normalized
  }

  function Sanitize(raw: string, maxLen: nat): string {
    Take(Normalize(raw), maxLen)
  }

  ghost predicate AllSafe(s: string) {
    forall ch <- s :: IsSafe(ch)
  }

  ghost predicate NoDoubleHyphen(s: string) {
    forall i :: 0 < i < |s| ==> s[i-1] != '-' || s[i] != '-'
  }

  /** [a-zA-Z][-a-zA-Z0-9]* without two hyphens in a row. */
  ghost predicate IsStackName(s: string) {
    s != "" && IsLetter(s[0]) && AllSafe(s) && NoDoubleHyphen(s)
  }

  ghost predicate EndsInHyphen(s: string) {
    s != "" && s[|s|-1] == '-'
  }

  lemma {:induction false} StripLeftSlices(s: string, p: char -> bool)
    ensures exists k :: 0 <= k <= |s| && StripLeft(s, p) == s[k..]
    ensures StripLeft(s, p) == "" || !p(StripLeft(s, p)[0])
  {
    if s != "" && p(s[0]) {
      StripLeftSlices(s[1..], p);
      var k :| 0 <= k <= |s[1..]| && StripLeft(s[1..], p) == s[1..][k..];
      assert s[1..][k..] == s[k+1..];
    } else {
      assert s == s[0..];
    }
  }

  lemma {:induction false} StripRightSlices(s: string, p: char -> bool)
    ensures exists k :: 0 <= k <= |s| && StripRight(s, p) == s[..k]
    ensures StripRight(s, p) == "" || !p(StripRight(s, p)[|StripRight(s, p)|-1])
  {
    if s != "" && p(s[|s|-1]) {
      StripRightSlices(s[..|s|-1], p);
      var k :| 0 <= k <= |s[..|s|-1]| && StripRight(s[..|s|-1], p) == s[..|s|-1][..k];
      assert s[..|s|-1][..k] == s[..k];
    } else {
      assert s == s[..|s|];
    }
  }

  lemma {:induction false} CollapseIsClean(s: string)
    requires AllSafe(s)
    ensures AllSafe(Collapse(s)) && NoDoubleHyphen(Collapse(s))
    ensures s != "" ==> Collapse(s) != "" && Collapse(s)[0] == s[0]
    ensures NoDoubleHyphen(s) ==> Collapse(s) == s
  {
    if |s| > 1 {
      assert s == [s[0]] + s[1..];
      CollapseIsClean(s[1..]);
    }
  }

  lemma ReplaceIsSafe(s: string)
    ensures AllSafe(Replace(s)) && (AllSafe(s) ==> Replace(s) == s)
  {
  }

  lemma SlicesStayClean(s: string, from: nat, to: nat)
    requires from <= to <= |s| && AllSafe(s) && NoDoubleHyphen(s)
    ensures AllSafe(s[from..to]) && NoDoubleHyphen(s[from..to])
  {
    assert forall i :: 0 <= i < to - from ==> s[from..to][i] == s[from + i];
  }

  lemma StrippedIsClean(s: string)
    requires AllSafe(s) && NoDoubleHyphen(s)
    ensures var t := Stripped(s); AllSafe(t) && NoDoubleHyphen(t) && (t != "" ==> t[0] != '-' && t[|t|-1] != '-')
  {
    StripLeftSlices(s, IsHyphen);
    var left := StripLeft(s, IsHyphen);
    var k :| 0 <= k <= |s| && left == s[k..];
    SlicesStayClean(s, k, |s|);
    assert s[k..|s|] == left;
    StripRightSlices(left, IsHyphen);
    var m :| 0 <= m <= |left| && Stripped(s) == left[..m];
    SlicesStayClean(left, 0, m);
    assert left[0..m] == left[..m];
  }

  lemma NormalizedIsStackName(raw: string)
    ensures IsStackName(Normalize(raw)) && !EndsInHyphen(Normalize(raw))
  {
    hide Trim, Replace, Collapse, Stripped;
    ReplaceIsSafe(Trim(raw));
    CollapseIsClean(Replace(Trim(raw)));
    StrippedIsClean(Collapse(Replace(Trim(raw))));
  }

  /** The sanitiser yields a stack name of at most maxLen characters, for any input. */
  lemma SanitizedIsStackName(raw: string, maxLen: nat)
    requires maxLen >= 1
    ensures IsStackName(Sanitize(raw, maxLen)) && |Sanitize(raw, maxLen)| <= maxLen
  {
    var name := Normalize(raw);
    NormalizedIsStackName(raw);
    if |name| > maxLen {
      SlicesStayClean(name, 0, maxLen);
      assert name[0..maxLen] == name[..maxLen];
    }
  }

  // ---------- What the replacements amount to ----------

  predicate IsWord(ch: char) {
    IsSafe(ch) && ch != '-'
  }

  /** The letters and digits in order, with one hyphen where anything else stood between two of them. */
  function Joined(s: string): string {
    if s == "" then ""
    else
      var rest := Joined(s[1..]);
      if !IsWord(s[0]) then rest
      else if rest == "" then [s[0]]
      else [s[0]] + (if IsWord(s[1]) then "" else "-") + rest
  }

  lemma {:induction false} LastSeparatorIsIdle(s: string)
    requires s != "" && !IsWord(s[|s|-1])
    ensures Joined(s[..|s|-1]) == Joined(s)
  {
    hide IsWord;
    if |s| > 1 {
      LastSeparatorIsIdle(s[1..]);
      assert s[..|s|-1][1..] == s[1..][..|s|-2];
    }
  }

  lemma {:induction false} StrippingKeepsJoined(s: string, p: char -> bool)
    requires forall ch :: p(ch) ==> !IsWord(ch)
    ensures Joined(StripLeft(s, p)) == Joined(s) && Joined(StripRight(s, p)) == Joined(s)
    decreases |s|
  {
    hide IsWord;
    if s != "" && p(s[0]) { StrippingKeepsJoined(s[1..], p); }
    if s != "" && p(s[|s|-1]) {
      StrippingKeepsJoined(s[..|s|-1], p);
      LastSeparatorIsIdle(s);
    }
  }

  lemma {:induction false} ReplaceKeepsJoined(s: string)
    ensures Joined(Replace(s)) == Joined(s)
  {
    if s != "" {
      ReplaceKeepsJoined(s[1..]);
      assert Replace(s)[1..] == Replace(s[1..]);
    }
  }

  lemma {:induction false} CollapseKeepsJoined(s: string)
    requires AllSafe(s)
    ensures Joined(Collapse(s)) == Joined(s)
  {
    if |s| > 1 {
      assert s == [s[0]] + s[1..];
      CollapseKeepsJoined(s[1..]);
      CollapseIsClean(s[1..]);
      assert ([s[0]] + Collapse(s[1..]))[1..] == Collapse(s[1..]);
    }
  }

  lemma {:induction false} CleanIsJoined(s: string)
    requires AllSafe(s) && NoDoubleHyphen(s) && !EndsInHyphen(s)
    ensures Joined(s) == if s != "" && s[0] == '-' then s[1..] else s
  {
    if s != "" {
      assert s == [s[0]] + s[1..] && s[0] in s;
      assert forall i :: 0 < i < |s[1..]| ==> s[1..][i-1] == s[i] && s[1..][i] == s[i+1];
      CleanIsJoined(s[1..]);
    }
  }

  lemma CleaningJoins(raw: string)
    ensures Stripped(Collapse(Replace(Trim(raw)))) == Joined(raw)
  {
    hide Joined, StripLeft, StripRight, Collapse, Replace, IsWord, IsSafe;
    assert forall ch: char :: (IsSpace(ch) || IsHyphen(ch)) ==> !IsWord(ch) by { SeparatorsAreNoWords(); }
    var clean := Collapse(Replace(Trim(raw)));
    StrippingKeepsJoined(raw, IsSpace);
    StrippingKeepsJoined(StripLeft(raw, IsSpace), IsSpace);
    ReplaceKeepsJoined(Trim(raw));
    ReplaceIsSafe(Trim(raw));
    CollapseKeepsJoined(Replace(Trim(raw)));
    CollapseIsClean(Replace(Trim(raw)));
    StrippingKeepsJoined(clean, IsHyphen);
    StrippingKeepsJoined(StripLeft(clean, IsHyphen), IsHyphen);
    StrippedIsClean(clean);
    CleanIsJoined(Stripped(clean));
  }

  lemma SeparatorsAreNoWords()
    ensures forall ch: char :: (IsSpace(ch) || IsHyphen(ch)) ==> !IsWord(ch)
  {
  }

  /** The chain of replacements joins the words of the input; no word is `Agent`, a first digit gets an `A` in front. */
  lemma NormalizeJoinsWords(raw: string)
    ensures Normalize(raw) ==
            if Joined(raw) == "" then "Agent" else if IsLetter(Joined(raw)[0]) then Joined(raw) else "A" + Joined(raw)
  {
    CleaningJoins(raw);
  }

  lemma StripsNothing(s: string, p: char -> bool)
    requires s == "" || (!p(s[0]) && !p(s[|s|-1]))
    ensures StripRight(StripLeft(s, p), p) == s
  {
  }

  /** A stack name that fits and does not end in a hyphen is left alone. */
  lemma StackNameIsKept(name: string, maxLen: nat)
    requires IsStackName(name) && !EndsInHyphen(name) && |name| <= maxLen
    ensures Sanitize(name, maxLen) == name
  {
    assert name[|name|-1] in name;
    StripsNothing(name, IsSpace);
    ReplaceIsSafe(name);
    CollapseIsClean(name);
    StripsNothing(name, IsHyphen);
  }

  lemma SanitizedShrinks(name: string, maxLen: nat)
    requires IsStackName(name) && EndsInHyphen(name) && |name| <= maxLen
    ensures |Sanitize(name, maxLen)| < |name|
  {
    StripsNothing(name, IsSpace);
    ReplaceIsSafe(name);
    CollapseIsClean(name);
    StripRightSlices(name[..|name|-1], IsHyphen);
    assert StripLeft(name, IsHyphen) == name;
    StripRightSlices(name, IsHyphen);
    assert StripRight(name, IsHyphen) == StripRight(name[..|name|-1], IsHyphen);
  }

  /** Sanitising twice is sanitising once, if and only if the cut to maxLen leaves no hyphen at the end. */
  lemma IdempotentUnlessCutAtHyphen(raw: string, maxLen: nat)
    requires maxLen >= 1
    ensures Sanitize(Sanitize(raw, maxLen), maxLen) == Sanitize(raw, maxLen) <==> !EndsInHyphen(Sanitize(raw, maxLen))
  {
    var name := Sanitize(raw, maxLen);
    SanitizedIsStackName(raw, maxLen);
    if EndsInHyphen(name) {
      SanitizedShrinks(name, maxLen);
    } else {
      StackNameIsKept(name, maxLen);
    }
  }

  // ---------- Names with the instance's suffix ----------

  function Suffix(instanceId: string): string {
    Take(WithoutHyphens(Trim(instanceId)), 8)
  }

  function Base(name: string): string {
    Sanitize(if Trim(name) == "" then "Agent" else Trim(name), 200)
  }

  function AgentUseCaseName(name: string, instanceId: string): string {
    var suffix := Suffix(instanceId);
    if suffix != "" then Take(Base(name) + "-" + suffix, 200) else Take(Base(name), 200)
  }

  function GatewayUseCaseName(agentName: string, instanceId: string): string {
    var suffix := Suffix(instanceId);
    if suffix != "" then Take("AIW-Tools-" + Base(agentName) + "-" + suffix, 200) else Take("AIW-Tools-" + Base(agentName), 200)
  }

  /** Blanks, tabs and line ends around a text are trimmed off. */
  lemma SpacesAreTrimmed(s: string, space: char)
    requires space in {' ', '\t', '\n', '\U{000B}', '\U{000C}', '\r', '\U{00A0}', '\U{2028}', '\U{FEFF}'}
    ensures Trim([space] + s) == Trim(s) && (s != "" && !IsSpace(s[0]) ==> Trim(s + [space]) == Trim(s))
  {
    assert ([space] + s)[1..] == s;
    if s != "" && !IsSpace(s[0]) {
      assert StripLeft(s + [space], IsSpace) == s + [space];
      assert (s + [space])[..|s|] == s;
    }
  }

  /** The suffix is the id's first eight characters, where these are letters or digits and no blank stands around the id. */
  lemma SuffixIsFirstEight(one: string, more: string)
    requires |one| == 8 && AllWords(one) && (more != "" ==> !IsSpace(more[|more|-1]))
    ensures Suffix(one + more) == one
  {
    var id := one + more;
    assert id[0] == one[0] && one[0] in one && one[7] in one;
    assert id[|id|-1] == if more == "" then one[7] else more[|more|-1];
    StripsNothing(id, IsSpace);
    HyphensAreDropped(one, more);
    CutKeepsStart(one, WithoutHyphens(more));
  }

  /** What the names are made of where nothing is cut off. */
  lemma NamesShow(name: string, instanceId: string)
    requires Suffix(instanceId) != "" && |Base(name)| + |Suffix(instanceId)| <= 189
    ensures AgentUseCaseName(name, instanceId) == Base(name) + "-" + Suffix(instanceId)
    ensures GatewayUseCaseName(name, instanceId) == "AIW-Tools-" + Base(name) + "-" + Suffix(instanceId)
  {
    hide Base, Suffix;
  }

  /** A name of letters and digits is its own base; a blank one has the base `Agent`. */
  lemma BaseShows(name: string)
    requires (forall ch <- name :: 'a' <= ch <= 'z' || 'A' <= ch <= 'Z' || '0' <= ch <= '9') && |name| <= 200
    ensures Base(name) == if name == "" then "Agent" else if IsLetter(name[0]) then name else Take("A" + name, 200)
  {
    hide Joined;
    if name == "" {
      assert IsStackName("Agent");
      StackNameIsKept("Agent", 200);
    } else {
      assert name[0] in name && name[|name|-1] in name;
      StripsNothing(name, IsSpace);
      NormalizeJoinsWords(name);
      WordIsJoined(name);
    }
  }

  lemma {:induction false} WordIsJoined(word: string)
    requires AllWords(word)
    ensures Joined(word) == word
  {
    if word != "" {
      assert word == [word[0]] + word[1..] && word[0] in word;
      WordIsJoined(word[1..]);
      if |word| > 1 { assert word[1] in word; }
    }
  }

  /** The first position at which the strings differ. */
  function FirstDiff(s: string, t: string): nat {
    if s == "" || t == "" || s[0] != t[0] then 0 else 1 + FirstDiff(s[1..], t[1..])
  }

  lemma {:induction false} FirstDiffDiffers(s: string, t: string)
    requires s != t
    ensures var d := FirstDiff(s, t);
            && d <= |s| && d <= |t| && s[..d] == t[..d]
            && (d < |s| && d < |t| ==> s[d] != t[d]) && (d == |s| || d == |t| ==> |s| != |t|)
  {
    if s != "" && t != "" && s[0] == t[0] {
      assert s == [s[0]] + s[1..] && t == [t[0]] + t[1..];
      FirstDiffDiffers(s[1..], t[1..]);
      var d := FirstDiff(s[1..], t[1..]);
      assert s[..d+1] == [s[0]] + s[1..][..d] && t[..d+1] == [t[0]] + t[1..][..d];
    }
  }

  /** Cut strings with a common start agree exactly when the cut comes before the first difference. */
  lemma CutsAgree(start: string, s: string, t: string, n: nat)
    requires s != t
    ensures Take(start + s, n) == Take(start + t, n) <==> n <= |start| + FirstDiff(s, t)
  {
    FirstDiffDiffers(s, t);
    var d := FirstDiff(s, t);
    var a, b := start + s, start + t;
    if n <= |start| + d {
      assert a[..n] == (start + s[..d])[..n] == b[..n];
    } else if d < |s| && d < |t| {
      assert Take(a, n)[|start| + d] == s[d] && Take(b, n)[|start| + d] == t[d];
    }
  }

  /** Names of two instances differ if and only if the first difference of their suffixes survives the cut at 200. */
  lemma AgentNamesDistinct(name: string, one: string, other: string)
    requires Suffix(one) != "" && Suffix(other) != "" && Suffix(one) != Suffix(other)
    ensures AgentUseCaseName(name, one) != AgentUseCaseName(name, other)
            <==> |Base(name)| + 1 + FirstDiff(Suffix(one), Suffix(other)) < 200
  {
    CutsAgree(Base(name) + "-", Suffix(one), Suffix(other), 200);
  }

  /** Eight-character suffixes stay distinct behind a base of at most 191 characters. */
  lemma ShortBasesKeepNamesDistinct(name: string, one: string, other: string)
    requires |Suffix(one)| == |Suffix(other)| == 8 && Suffix(one) != Suffix(other) && |Base(name)| <= 191
    ensures AgentUseCaseName(name, one) != AgentUseCaseName(name, other)
  {
    FirstDiffDiffers(Suffix(one), Suffix(other));
    AgentNamesDistinct(name, one, other);
  }

  ghost predicate AllWords(s: string) {
    forall ch <- s :: IsWord(ch)
  }

  lemma SuffixedNameIsKept(base: string, suffix: string)
    requires IsStackName(base) && !EndsInHyphen(base) && suffix != "" && AllWords(suffix) && |base| + 1 + |suffix| <= 200
    ensures Base(base + "-" + suffix) == base + "-" + suffix
  {
    var name := base + "-" + suffix;
    assert base[|base|-1] in base && suffix[|suffix|-1] in suffix && name[0] == base[0] && name[|name|-1] == suffix[|suffix|-1];
    StripsNothing(name, IsSpace);
    forall i | 0 < i < |name| ensures name[i-1] != '-' || name[i] != '-' {
      if i > |base| { assert name[i] == suffix[i - |base| - 1] && IsWord(name[i]); }
      else if i < |base| { assert name[i-1] == base[i-1] && name[i] == base[i]; }
    }
    StackNameIsKept(name, 200);
  }

  /**
   A gateway's name holds its agent's name and the suffix again, so it is cut earlier: behind a base
   of 182 to 191 characters two agents can have distinct names and their gateways the same one.
   */
  lemma GatewayNamesDistinct(name: string, one: string, other: string)
    requires Suffix(one) != Suffix(other) && |Suffix(one)| == |Suffix(other)| == 8
    requires AllWords(Suffix(one)) && AllWords(Suffix(other)) && |Base(name)| <= 191 && !EndsInHyphen(Base(name))
    ensures GatewayUseCaseName(AgentUseCaseName(name, one), one) != GatewayUseCaseName(AgentUseCaseName(name, other), other)
            <==> |Base(name)| + 11 + FirstDiff(Suffix(one), Suffix(other)) < 200
  {
    hide Sanitize, Suffix, FirstDiff, Trim, IsStackName;
    var base, s, t := Base(name), Suffix(one), Suffix(other);
    SanitizedIsStackName(if Trim(name) == "" then "Agent" else Trim(name), 200);
    SuffixedNameIsKept(base, s);
    SuffixedNameIsKept(base, t);
    FirstDiffDiffers(s, t);
    var start := "AIW-Tools-" + base + "-";
    assert "AIW-Tools-" + (base + "-" + s) + "-" + s == start + (s + ("-" + s));
    assert "AIW-Tools-" + (base + "-" + t) + "-" + t == start + (t + ("-" + t));
    DiffOfConcats(s, t, "-" + s, "-" + t);
    CutsAgree(start, s + ("-" + s), t + ("-" + t), 200);
  }

  lemma {:induction false} DiffOfConcats(s: string, t: string, u: string, v: string)
    requires |s| == |t| && s != t
    ensures s + u != t + v && FirstDiff(s + u, t + v) == FirstDiff(s, t)
  {
    assert (s + u)[..|s|] == s && (t + v)[..|t|] == t;
    assert s == [s[0]] + s[1..] && t == [t[0]] + t[1..];
    if s[0] == t[0] {
      assert (s + u)[1..] == s[1..] + u && (t + v)[1..] == t[1..] + v;
      DiffOfConcats(s[1..], t[1..], u, v);
    }
  }
}
