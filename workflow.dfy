/**
 * Branch-name suggestions (internal/agent/workflow.go): a lower-cased work
 * item id, a dash, and the title reduced to `a-z`, `0-9` and single dashes.
 */
module Workflow {
  import opened Text
  import opened Models

  /** The characters `[^a-z0-9]` does not match. */
  predicate IsBranchChar(c: char)
  {
    'a' <= c <= 'z' || '0' <= c <= '9'
  }

  /** Only branch characters and dashes. */
  predicate BranchAlphabet(s: string)
  {
    forall i :: 0 <= i < |s| ==> IsBranchChar(s[i]) || s[i] == '-'
  }

  /** Two dashes in a row start at `i`. */
  predicate DashPairAt(s: string, i: int)
  {
    0 <= i && i + 1 < |s| && s[i] == '-' && s[i + 1] == '-'
  }

  /** No two dashes in a row. */
  predicate NoDoubleDash(s: string)
  {
    forall i :: 0 <= i < |s| ==> !DashPairAt(s, i)
  }

  /** What a sanitised title looks like. */
  predicate IsBranchSegment(s: string)
  {
    s != "" && |s| <= MaxSegment && BranchAlphabet(s) && NoDoubleDash(s) && s[0] != '-'
  }

  /** The length `sanitizeBranch` cuts to. */
  const MaxSegment := 32

  /** The branch characters of `s`, in order: what sanitising keeps of a title. */
  function Kept(s: string): (r: string)
    ensures |r| <= |s|
    ensures forall i :: 0 <= i < |r| ==> IsBranchChar(r[i])
  {
    if s == [] then []
    else if IsBranchChar(s[0]) then [s[0]] + Kept(s[1..])
    else Kept(s[1..])
  }

  lemma {:induction false} KeptAppend(a: string, b: string)
    ensures Kept(a + b) == Kept(a) + Kept(b)
    decreases |a|
  {
    if a != [] {
      var head := if IsBranchChar(a[0]) then [a[0]] else [];
      assert (a + b)[0] == a[0];
      assert (a + b)[1..] == a[1..] + b;
      KeptAppend(a[1..], b);
      assert Kept(a + b) == head + Kept(a[1..] + b);
      assert Kept(a) == head + Kept(a[1..]);
    } else {
      assert a + b == b;
    }
  }

  /** A string with no branch characters keeps nothing. */
  lemma {:induction false} KeptNone(s: string)
    requires forall i :: 0 <= i < |s| ==> !IsBranchChar(s[i])
    ensures Kept(s) == []
    decreases |s|
  {
    if s != [] {
      KeptNone(s[1..]);
    }
  }

  /** `strings.ReplaceAll(s, "&", "and")`. */
  function ReplaceAmpersand(s: string): (r: string)
    ensures forall i :: 0 <= i < |r| ==> r[i] != '&'
    ensures (forall i :: 0 <= i < |s| ==> s[i] != '&') ==> r == s
  {
    if s == [] then []
    else (if s[0] == '&' then "and" else [s[0]]) + ReplaceAmpersand(s[1..])
  }

  /** The rest of `s` after its leading run of non-branch characters. */
  function SkipRun(s: string): (r: string)
    ensures |r| <= |s| && r == s[|s| - |r|..]
    ensures r == [] || IsBranchChar(r[0])
    ensures forall i :: 0 <= i < |s| - |r| ==> !IsBranchChar(s[i])
  {
    if s != [] && !IsBranchChar(s[0]) then
      var r := SkipRun(s[1..]);
      assert forall i :: 1 <= i < |s| - |r| ==> s[i] == s[1..][i - 1];
      r
    else s
  }

  /** `regexp.MustCompile("[^a-z0-9]+").ReplaceAllString(s, "-")`. */
  function CollapseRuns(s: string): (r: string)
    ensures s == [] <==> r == []
    ensures s != [] && IsBranchChar(s[0]) ==> r[0] == s[0]
    ensures s != [] && !IsBranchChar(s[0]) ==> r[0] == '-'
    decreases |s|
  {
    if s == [] then []
    else if IsBranchChar(s[0]) then [s[0]] + CollapseRuns(s[1..])
    else "-" + CollapseRuns(SkipRun(s[1..]))
  }

  /** Prefixing a branch character, or a dash before a non-dash, keeps a string collapsed. */
  lemma ConsShape(c: char, t: string)
    requires BranchAlphabet(t) && NoDoubleDash(t)
    requires IsBranchChar(c) || (c == '-' && (t == [] || t[0] != '-'))
    ensures BranchAlphabet([c] + t) && NoDoubleDash([c] + t)
  {
    var s := [c] + t;
    forall k | 0 <= k < |s|
      ensures !DashPairAt(s, k)
    {
      if 1 <= k {
        assert !DashPairAt(t, k - 1);
      }
    }
  }

  /** Collapsing leaves only branch characters and single dashes. */
  lemma {:induction false} CollapseRunsShape(s: string)
    ensures BranchAlphabet(CollapseRuns(s)) && NoDoubleDash(CollapseRuns(s))
    decreases |s|
  {
    if s == [] {
    } else if IsBranchChar(s[0]) {
      CollapseRunsShape(s[1..]);
      ConsShape(s[0], CollapseRuns(s[1..]));
    } else {
      var t := SkipRun(s[1..]);
      CollapseRunsShape(t);
      ConsShape('-', CollapseRuns(t));
    }
  }

  /** Collapsing keeps exactly the branch characters, in order. */
  lemma {:induction false} CollapseRunsKeeps(s: string)
    ensures Kept(CollapseRuns(s)) == Kept(s)
    decreases |s|
  {
    if s == [] {
    } else if IsBranchChar(s[0]) {
      CollapseRunsKeeps(s[1..]);
      KeptAppend([s[0]], CollapseRuns(s[1..]));
    } else {
      var t := SkipRun(s[1..]);
      CollapseRunsKeeps(t);
      KeptAppend("-", CollapseRuns(t));
      var skipped := s[1..][..|s[1..]| - |t|];
      assert s[1..] == skipped + t;
      KeptNone(skipped);
      KeptAppend(skipped, t);
    }
  }

  /** A string already in collapsed form is left alone. */
  lemma {:induction false} CollapseRunsFixed(s: string)
    requires BranchAlphabet(s) && NoDoubleDash(s)
    ensures CollapseRuns(s) == s
    decreases |s|
  {
    if s != [] {
      SliceShape(s, 1, |s|);
      assert s[1..|s|] == s[1..];
      if IsBranchChar(s[0]) {
        CollapseRunsFixed(s[1..]);
      } else {
        assert SkipRun(s[1..]) == s[1..] by {
          assert !DashPairAt(s, 0);
        }
        CollapseRunsFixed(s[1..]);
      }
    }
  }

  /** A slice of a collapsed string is still collapsed. */
  lemma SliceShape(c: string, i: nat, j: nat)
    requires BranchAlphabet(c) && NoDoubleDash(c) && i <= j <= |c|
    ensures BranchAlphabet(c[i..j]) && NoDoubleDash(c[i..j])
  {
    forall k | 0 <= k < j - i
      ensures !DashPairAt(c[i..j], k)
    {
      assert !DashPairAt(c, i + k);
    }
  }

  /** Trimming leading dashes keeps the branch characters. */
  lemma {:induction false} KeptTrimLeft(c: string)
    ensures Kept(TrimLeft(c, {'-'})) == Kept(c)
    decreases |c|
  {
    if |c| > 0 && c[0] == '-' {
      KeptTrimLeft(c[1..]);
    }
  }

  /** Trimming trailing dashes keeps the branch characters. */
  lemma {:induction false} KeptTrimRight(c: string)
    ensures Kept(TrimRight(c, {'-'})) == Kept(c)
    decreases |c|
  {
    if |c| > 0 && c[|c| - 1] == '-' {
      var init := c[..|c| - 1];
      KeptTrimRight(init);
      assert c == init + "-";
      KeptAppend(init, "-");
    }
  }

  /** Trimming dashes keeps the branch characters. */
  lemma TrimDashesKept(c: string)
    ensures Kept(Trim(c, {'-'})) == Kept(c)
  {
    KeptTrimLeft(c);
    KeptTrimRight(TrimLeft(c, {'-'}));
  }

  /** Trimming the outer dashes of a collapsed string keeps it collapsed and leaves no outer dash. */
  lemma TrimShape(c: string)
    requires BranchAlphabet(c) && NoDoubleDash(c)
    ensures var r := Trim(c, {'-'});
      BranchAlphabet(r) && NoDoubleDash(r) && (r == [] || (r[0] != '-' && r[|r| - 1] != '-'))
  {
    var l := TrimLeft(c, {'-'});
    var r := TrimRight(l, {'-'});
    SliceShape(c, |c| - |l|, |c|);
    assert c[|c| - |l|..|c|] == l;
    SliceShape(l, 0, |r|);
    assert l[0..|r|] == r;
    if r != [] {
      assert r[0] == l[0];
    }
  }

  /** The title after replacing, collapsing and trimming, before the fallback and the cut. */
  function Collapsed(s: string): (r: string)
    ensures BranchAlphabet(r) && NoDoubleDash(r)
    ensures r == [] || (r[0] != '-' && r[|r| - 1] != '-')
    ensures Kept(r) == Kept(ReplaceAmpersand(s))
  {
    var c := CollapseRuns(ReplaceAmpersand(s));
    CollapseRunsShape(ReplaceAmpersand(s));
    TrimShape(c);
    CollapseRunsKeeps(ReplaceAmpersand(s));
    TrimDashesKept(c);
    Trim(c, {'-'})
  }

  /** What an empty sanitised title becomes. */
  const Fallback := "work"

  /**
   * `sanitizeBranch(s)`: "&" becomes "and", each run of other characters one
   * dash, outer dashes go, "" becomes "work", and the result is cut to 32.
   */
  function SanitizeBranch(s: string): (r: string)
    ensures IsBranchSegment(r)
    ensures r[|r| - 1] == '-' ==> |Collapsed(s)| > MaxSegment
  {
    var t := Collapsed(s);
    if t == "" then
      // "work" is already shorter than the cut
      FallbackIsClean();
      Fallback
    else
      CutSegment(t);
      if |t| > MaxSegment then t[..MaxSegment] else t
  }

  /** A string of branch characters alone is clean. */
  lemma PlainIsClean(s: string)
    requires forall i :: 0 <= i < |s| ==> IsBranchChar(s[i])
    ensures BranchAlphabet(s) && NoDoubleDash(s)
  {
    forall k | 0 <= k < |s|
      ensures !DashPairAt(s, k)
    {
    }
  }

  /** "work" is a clean segment. */
  lemma FallbackIsClean()
    ensures IsBranchSegment(Fallback) && Fallback[|Fallback| - 1] != '-'
  {
    forall i | 0 <= i < |Fallback|
      ensures IsBranchChar(Fallback[i])
    {
      assert i == 0 || i == 1 || i == 2 || i == 3;
    }
    PlainIsClean(Fallback);
  }

  /** Cutting a clean, non-empty string to the limit gives a segment that ends in a dash only if it was cut. */
  lemma CutSegment(u: string)
    requires u != [] && BranchAlphabet(u) && NoDoubleDash(u) && u[0] != '-' && u[|u| - 1] != '-'
    ensures var r := if |u| > MaxSegment then u[..MaxSegment] else u;
      IsBranchSegment(r) && (r[|r| - 1] == '-' ==> |u| > MaxSegment)
  {
    if |u| > MaxSegment {
      SliceShape(u, 0, MaxSegment);
      assert u[..MaxSegment][0] == u[0];
    }
  }

  /**
   * Sanitising keeps the title's letters and digits in order ("&" counting as
   * "and"): all of them when nothing is cut, a prefix of them otherwise, and
   * "work" exactly when there are none.
   */
  lemma SanitizeKeeps(s: string)
    ensures Kept(ReplaceAmpersand(s)) == [] ==> SanitizeBranch(s) == Fallback
    ensures Kept(ReplaceAmpersand(s)) != [] && |Collapsed(s)| <= MaxSegment ==>
      Kept(SanitizeBranch(s)) == Kept(ReplaceAmpersand(s))
    ensures Kept(ReplaceAmpersand(s)) != [] ==> HasPrefix(Kept(ReplaceAmpersand(s)), Kept(SanitizeBranch(s)))
  {
    var t := Collapsed(s);
    if t == [] {
      assert Kept(t) == [];
    } else if |t| > MaxSegment {
      KeptAppend(t[..MaxSegment], t[MaxSegment..]);
      assert t == t[..MaxSegment] + t[MaxSegment..];
    }
  }

  /** `SuggestBranchName(w)`: `<lower-case id>-<sanitised lower-case title>`. */
  function SuggestBranchName(w: WorkItem): (r: string)
    ensures |r| <= |w.id| + 1 + MaxSegment
    ensures HasPrefix(r, ToLower(w.id) + "-")
    ensures IsBranchSegment(r[|w.id| + 1..])
    ensures r == ToLower(w.id) + "-" + SanitizeBranch(ToLower(w.title))
  {
    var r := ToLower(w.id) + "-" + SanitizeBranch(ToLower(w.title));
    assert r[|w.id| + 1..] == SanitizeBranch(ToLower(w.title));
    r
  }

  /** A string of branch characters and dashes has no '&' to replace. */
  lemma NoAmpersand(s: string)
    requires BranchAlphabet(s)
    ensures ReplaceAmpersand(s) == s
  {
    forall i | 0 <= i < |s|
      ensures s[i] != '&'
    {
      assert IsBranchChar(s[i]) || s[i] == '-';
    }
  }

  /** Trimming dashes off a string that neither starts nor ends with one changes nothing. */
  lemma TrimNoDashes(s: string)
    requires s != [] && s[0] != '-' && s[|s| - 1] != '-'
    ensures Trim(s, {'-'}) == s
  {
    assert TrimLeft(s, {'-'}) == s;
  }

  /** A collapsed string without outer dashes is its own collapsed form. */
  lemma CollapsedFixed(s: string)
    requires BranchAlphabet(s) && NoDoubleDash(s) && s != [] && s[0] != '-' && s[|s| - 1] != '-'
    ensures Collapsed(s) == s
  {
    NoAmpersand(s);
    CollapseRunsFixed(s);
    TrimNoDashes(s);
  }

  /** A title that is already a short, clean segment is its own branch segment. */
  lemma SanitizeFixedPoint(s: string)
    requires IsBranchSegment(s) && s[|s| - 1] != '-'
    ensures SanitizeBranch(s) == s
  {
    CollapsedFixed(s);
  }

  /** Sanitising twice changes nothing unless the cut left a trailing dash. */
  lemma SanitizeIdempotent(s: string)
    requires SanitizeBranch(s)[|SanitizeBranch(s)| - 1] != '-'
    ensures SanitizeBranch(SanitizeBranch(s)) == SanitizeBranch(s)
  {
    SanitizeFixedPoint(SanitizeBranch(s));
  }

  /** A string of branch characters is already collapsed. */
  lemma CollapseRunsPlain(b: string)
    requires forall i :: 0 <= i < |b| ==> IsBranchChar(b[i])
    ensures CollapseRuns(b) == b
  {
    CollapseRunsAppend(b, []);
    assert b + [] == b;
  }

  /** A single space before a word collapses to one dash. */
  lemma CollapseSpaceWord(b: string)
    requires b != [] && forall i :: 0 <= i < |b| ==> IsBranchChar(b[i])
    ensures CollapseRuns(" " + b) == "-" + b
  {
    assert (" " + b)[1..] == b;
    assert SkipRun(b) == b;
    CollapseRunsPlain(b);
  }

  /**
   * The cut can end a segment in a dash: 31 branch characters, a space, then
   * a word, sanitise to the 31 characters and a trailing dash.
   */
  lemma TruncationLeavesDash(a: string, b: string)
    requires |a| == MaxSegment - 1 && forall i :: 0 <= i < |a| ==> IsBranchChar(a[i])
    requires b != [] && forall i :: 0 <= i < |b| ==> IsBranchChar(b[i])
    ensures SanitizeBranch(a + " " + b) == a + "-"
  {
    CollapsedSpaced(a, b);
    SanitizeCuts(a + " " + b);
    CutAfterDash(a, b);
  }

  /** Two words of branch characters around a space have nothing to replace. */
  lemma SpacedNoAmpersand(a: string, b: string)
    requires forall i :: 0 <= i < |a| ==> IsBranchChar(a[i])
    requires forall i :: 0 <= i < |b| ==> IsBranchChar(b[i])
    ensures ReplaceAmpersand(a + " " + b) == a + " " + b
  {
    AmpersandFree(a);
    AmpersandFree(b);
    AmpersandFreeAppend(a, " ");
    AmpersandFreeAppend(a + " ", b);
  }

  /** No '&' in `s`. */
  predicate NoAmpersandIn(s: string)
  {
    forall i :: 0 <= i < |s| ==> s[i] != '&'
  }

  lemma AmpersandFree(s: string)
    requires forall i :: 0 <= i < |s| ==> IsBranchChar(s[i])
    ensures NoAmpersandIn(s)
  {
  }

  lemma AmpersandFreeAppend(x: string, y: string)
    requires NoAmpersandIn(x) && NoAmpersandIn(y)
    ensures NoAmpersandIn(x + y)
  {
    forall i | 0 <= i < |x + y|
      ensures (x + y)[i] != '&'
    {
      if i >= |x| {
        assert (x + y)[i] == y[i - |x|];
      }
    }
  }

  /** The space between two words of branch characters collapses to a dash. */
  lemma CollapseSpaced(a: string, b: string)
    requires forall i :: 0 <= i < |a| ==> IsBranchChar(a[i])
    requires b != [] && forall i :: 0 <= i < |b| ==> IsBranchChar(b[i])
    ensures CollapseRuns(a + " " + b) == a + ("-" + b)
  {
    assert a + " " + b == a + (" " + b);
    CollapseSpaceWord(b);
    CollapseRunsAppend(a, " " + b);
  }

  /** Two words of branch characters around a space sanitise to the words joined by a dash, before the cut. */
  lemma CollapsedSpaced(a: string, b: string)
    requires a != [] && forall i :: 0 <= i < |a| ==> IsBranchChar(a[i])
    requires b != [] && forall i :: 0 <= i < |b| ==> IsBranchChar(b[i])
    ensures Collapsed(a + " " + b) == a + ("-" + b)
  {
    var c := a + ("-" + b);
    SpacedNoAmpersand(a, b);
    CollapseSpaced(a, b);
    assert c[0] == a[0] && c[|c| - 1] == b[|b| - 1];
    TrimNoDashes(c);
  }

  lemma CutAfterDash(a: string, b: string)
    ensures (a + ("-" + b))[..|a| + 1] == a + "-"
  {
    var c := a + ("-" + b);
    assert forall k :: 0 <= k < |a| + 1 ==> c[k] == (a + "-")[k];
  }

  /** A collapsed title longer than the limit is cut to its first 32 characters. */
  lemma SanitizeCuts(s: string)
    requires |Collapsed(s)| > MaxSegment
    ensures SanitizeBranch(s) == Collapsed(s)[..MaxSegment]
  {
  }

  /** Collapsing distributes over a prefix of branch characters. */
  lemma {:induction false} CollapseRunsAppend(a: string, b: string)
    requires forall i :: 0 <= i < |a| ==> IsBranchChar(a[i])
    ensures CollapseRuns(a + b) == a + CollapseRuns(b)
    decreases |a|
  {
    if a != [] {
      assert (a + b)[0] == a[0];
      assert (a + b)[1..] == a[1..] + b;
      CollapseRunsAppend(a[1..], b);
      assert [a[0]] + a[1..] == a;
    } else {
      assert a + b == b;
    }
  }
}
