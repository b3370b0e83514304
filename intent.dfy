/**
 * Rule-based intent tags (internal/agent/intent.go): a tag applies when one
 * of its keywords occurs as a whole word in the lower-cased text.
 */
module Intent {
  import opened Text

  /** The constant `intentRules` table. */
  const IntentRules: map<string, seq<string>> := map[
    "bugfix" := ["fix", "error", "broken", "failure", "bug", "regression", "crash"],
    "frontend" := ["ui", "react", "component", "console", "browser", "css", "html"],
    "backend" := ["api", "timeout", "service", "database", "db", "server", "latency", "test"],
    "design" := ["architecture", "refactor", "design", "pattern", "structure"]
  ]

  /** The tag returned when no rule matches. */
  const General := "general"

  /** The characters of `\w` in Go's regexp syntax (ASCII only): letters of either case, digits, `_`. */
  predicate IsWordChar(c: char)
    ensures IsWordChar(c) <==> 'a' <= LowerChar(c) <= 'z' || IsDigit(c) || c == '_'
  {
    'a' <= c <= 'z' || 'A' <= c <= 'Z' || '0' <= c <= '9' || c == '_'
  }

  /** A keyword whose first and last characters are word characters, as every keyword of the table. */
  predicate IsWordKeyword(kw: string)
  {
    kw != [] && IsWordChar(kw[0]) && IsWordChar(kw[|kw| - 1])
  }

  /** `\bkw\b` matches at position `i`: `kw` is there, with no word character on either side. */
  predicate WholeWordAt(s: string, kw: string, i: int)
    ensures WholeWordAt(s, kw, i) ==> OccursAt(s, kw, i)
  {
    0 <= i && i + |kw| <= |s| && s[i..i + |kw|] == kw
    && (i == 0 || !IsWordChar(s[i - 1]))
    && (i + |kw| == |s| || !IsWordChar(s[i + |kw|]))
  }

  /** The search of `regexp.MatchString` from position `k` on. */
  function WordFrom(s: string, kw: string, k: nat): (r: bool)
    ensures r <==> exists i :: k <= i && WholeWordAt(s, kw, i)
    decreases |s| - k
  {
    if k + |kw| > |s| then
      assert forall i :: k <= i ==> !WholeWordAt(s, kw, i);
      false
    else if WholeWordAt(s, kw, k) then true
    else
      var r := WordFrom(s, kw, k + 1);
      assert (exists i :: k <= i && WholeWordAt(s, kw, i)) ==> exists i :: k + 1 <= i && WholeWordAt(s, kw, i);
      r
  }

  /** `regexp.MustCompile("\\b" + kw + "\\b").MatchString(s)`. */
  predicate HasWord(s: string, kw: string)
    ensures HasWord(s, kw) <==> exists i :: WholeWordAt(s, kw, i)
  {
    WordFrom(s, kw, 0)
  }

  /** Some keyword of the rule occurs as a whole word. */
  predicate MatchesRule(s: string, keywords: seq<string>)
    ensures MatchesRule(s, keywords) <==> exists kw :: kw in keywords && HasWord(s, kw)
    ensures keywords == [] ==> !MatchesRule(s, keywords)
  {
    exists m :: 0 <= m < |keywords| && HasWord(s, keywords[m])
  }

  /** The tags whose rules match the lower-cased text. */
  function Tags(text: string): (tags: set<string>)
    ensures tags <= IntentRules.Keys
    ensures forall t :: t in tags <==> t in IntentRules && MatchesRule(ToLower(text), IntentRules[t])
  {
    set t | t in IntentRules && MatchesRule(ToLower(text), IntentRules[t])
  }

  /** The inner keyword loop: does some keyword of the rule match? Stops at the first match. */
  method RuleMatches(lower: string, keywords: seq<string>) returns (b: bool)
    ensures b <==> MatchesRule(lower, keywords)
  {
    var k := 0;
    while k < |keywords|
      invariant 0 <= k <= |keywords|
      invariant forall m :: 0 <= m < k ==> !HasWord(lower, keywords[m])
    {
      if HasWord(lower, keywords[k]) {
        return true;
      }
      k := k + 1;
    }
    return false;
  }

  /** The loop over `intentRules`: each matching tag once, stopping at its first matching keyword. */
  method MatchingTags(lower: string, rules: map<string, seq<string>>) returns (intents: seq<string>)
    ensures forall t :: t in intents <==> t in rules && MatchesRule(lower, rules[t])
    ensures forall i, j :: 0 <= i < j < |intents| ==> intents[i] != intents[j]
  {
    var remaining := rules.Keys;
    intents := [];
    while remaining != {}
      invariant remaining <= rules.Keys
      invariant forall t :: t in intents <==> t in rules && t !in remaining && MatchesRule(lower, rules[t])
      invariant forall i, j :: 0 <= i < j < |intents| ==> intents[i] != intents[j]
      decreases |remaining|
    {
      var tag :| tag in remaining;
      var matches := RuleMatches(lower, rules[tag]);
      if matches {
        intents := intents + [tag];
      }
      remaining := remaining - {tag};
    }
  }

  lemma GeneralIsNotARule()
    ensures General !in IntentRules
  {
  }

  /**
   * `ClassifyIntent(text)`: the matching tags, each once, in the table's
   * (unspecified) iteration order; just "general" when none match.
   */
  method ClassifyIntent(text: string) returns (intents: seq<string>)
    ensures |intents| > 0
    ensures intents == [General] <==> Tags(text) == {}
    ensures Tags(text) != {} ==> forall t :: t in intents <==> t in Tags(text)
    ensures forall i, j :: 0 <= i < j < |intents| ==> intents[i] != intents[j]
    ensures forall t :: t in intents ==> t in IntentRules || t == General
  {
    intents := MatchingTags(ToLower(text), IntentRules);
    assert forall t :: t in intents <==> t in Tags(text);
    if |intents| == 0 {
      assert Tags(text) == {};
      intents := [General];
    } else {
      assert intents[0] in Tags(text);
      GeneralIsNotARule();
    }
  }

  /** Every keyword of the table is a whole word. */
  lemma KeywordsAreWords()
    ensures forall t, m :: t in IntentRules && 0 <= m < |IntentRules[t]| ==> IsWordKeyword(IntentRules[t][m])
  {
  }

  lemma {:induction false} LowerCharIdempotent(c: char)
    ensures LowerChar(LowerChar(c)) == LowerChar(c)
  {
  }

  /** The tags do not depend on letter case. */
  lemma TagsIgnoreCase(text: string)
    ensures Tags(ToLower(text)) == Tags(text)
  {
    forall i | 0 <= i < |text|
      ensures ToLower(ToLower(text))[i] == ToLower(text)[i]
    {
      LowerCharIdempotent(text[i]);
    }
    assert ToLower(ToLower(text)) == ToLower(text);
  }

  /** A keyword inside a longer word does not count: "prefix" is not "fix". */
  lemma InsideWordDoesNotMatch()
    ensures !HasWord("prefix", "fix")
  {
    assert !WholeWordAt("prefix", "fix", 3) by {
      assert IsWordChar("prefix"[2]);
    }
    assert "prefix"[0..3] == "pre";
    assert "prefix"[1..4] == "ref";
    assert "prefix"[2..5] == "efi";
  }

  /** Punctuation is a word boundary: "fix" in "hot-fix!" matches. */
  lemma PunctuationIsBoundary()
    ensures HasWord("hot-fix!", "fix")
  {
    assert WholeWordAt("hot-fix!", "fix", 4) by {
      assert "hot-fix!"[4..7] == "fix";
    }
  }
}
