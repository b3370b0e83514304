/**
 * Prompt assembly (internal/agent/prompt.go): the list and text helpers the
 * prompt template calls, the template itself written out as concatenation,
 * and `BuildPrompt`, which loads the records, fills in defaults, renders and
 * writes `.agent/exports/current.prompt.md`.
 */
module Prompt {
  import opened Wrappers
  import opened Text
  import opened Models
  import opened FileSystem
  import opened Layout
  import opened Storage

  /** What an empty list renders as. */
  const NoItems := "- None"

  // ---------------------------------------------------------------------
  // Filters
  // ---------------------------------------------------------------------

  /** The entries that are not blank, in order. */
  function NonBlank(items: seq<string>): (r: seq<string>)
    ensures |r| <= |items|
    ensures forall i :: 0 <= i < |r| ==> !IsBlank(r[i])
    ensures forall x :: x in r ==> x in items
  {
    if items == [] then []
    else (if IsBlank(items[0]) then [] else [items[0]]) + NonBlank(items[1..])
  }

  lemma {:induction false} NonBlankAppend(a: seq<string>, b: seq<string>)
    ensures NonBlank(a + b) == NonBlank(a) + NonBlank(b)
    decreases |a|
  {
    if a == [] {
      assert a + b == b;
    } else {
      assert (a + b)[0] == a[0];
      assert (a + b)[1..] == a[1..] + b;
      NonBlankAppend(a[1..], b);
    }
  }

  /** Every non-blank entry is kept. */
  lemma {:induction false} NonBlankKeeps(items: seq<string>)
    ensures forall x :: x in items && !IsBlank(x) ==> x in NonBlank(items)
    decreases |items|
  {
    if items != [] {
      NonBlankKeeps(items[1..]);
      assert forall x :: x in items ==> x == items[0] || x in items[1..];
    }
  }

  /** Entries that are all non-blank come through unchanged and in order. */
  lemma {:induction false} NonBlankKeepsAll(items: seq<string>)
    requires forall i :: 0 <= i < |items| ==> !IsBlank(items[i])
    ensures NonBlank(items) == items
    decreases |items|
  {
    if items != [] {
      NonBlankKeepsAll(items[1..]);
      assert [items[0]] + items[1..] == items;
    }
  }

  /** Entries that are all blank leave nothing. */
  lemma {:induction false} NonBlankOfBlanks(items: seq<string>)
    requires forall i :: 0 <= i < |items| ==> IsBlank(items[i])
    ensures NonBlank(items) == []
    decreases |items|
  {
    if items != [] {
      NonBlankOfBlanks(items[1..]);
    }
  }

  /** One entry of `mergeUnique`'s input, trimmed, or nothing when it is blank. */
  function CleanedEntry(x: string): seq<string>
  {
    var t := TrimSpace(x);
    if t == "" then [] else [t]
  }

  /** The trimmed entries that are not empty, in order. */
  function Cleaned(items: seq<string>): seq<string>
  {
    if items == [] then [] else CleanedEntry(items[0]) + Cleaned(items[1..])
  }

  lemma {:induction false} CleanedAppend(a: seq<string>, b: seq<string>)
    ensures Cleaned(a + b) == Cleaned(a) + Cleaned(b)
    decreases |a|
  {
    if a == [] {
      assert a + b == b;
    } else {
      assert (a + b)[0] == a[0];
      assert (a + b)[1..] == a[1..] + b;
      CleanedAppend(a[1..], b);
    }
  }

  /** Every cleaned entry is trimmed and non-empty, and every non-blank entry is there trimmed. */
  lemma CleanedShape(items: seq<string>)
    ensures forall y :: y in Cleaned(items) ==> y != "" && TrimSpace(y) == y
    ensures forall x :: x in items && TrimSpace(x) != "" ==> TrimSpace(x) in Cleaned(items)
  {
    CleanedTrimmed(items);
    CleanedCovers(items);
  }

  lemma {:induction false} CleanedTrimmed(items: seq<string>)
    ensures forall y :: y in Cleaned(items) ==> y != "" && TrimSpace(y) == y
    decreases |items|
  {
    if items != [] {
      CleanedTrimmed(items[1..]);
      TrimSpaceIdempotent(items[0]);
      forall y | y in Cleaned(items)
        ensures y != "" && TrimSpace(y) == y
      {
        if y !in Cleaned(items[1..]) {
          assert y in CleanedEntry(items[0]);
        }
      }
    }
  }

  lemma {:induction false} CleanedCovers(items: seq<string>)
    ensures forall x :: x in items && TrimSpace(x) != "" ==> TrimSpace(x) in Cleaned(items)
    decreases |items|
  {
    if items != [] {
      CleanedCovers(items[1..]);
      forall x | x in items && TrimSpace(x) != ""
        ensures TrimSpace(x) in Cleaned(items)
      {
        if x == items[0] {
          assert TrimSpace(x) in CleanedEntry(items[0]);
        } else {
          assert x in items[1..];
        }
      }
    }
  }

  /** The members of a sequence. */
  function Elems(items: seq<string>): set<string>
  {
    set x | x in items
  }

  /** The first occurrence of each entry not already `seen`, in order. */
  function UniqueFrom(items: seq<string>, seen: set<string>): (r: seq<string>)
    ensures forall i, j :: 0 <= i < j < |r| ==> r[i] != r[j]
    ensures forall x :: x in r <==> x in items && x !in seen
  {
    if items == [] then []
    else if items[0] in seen then UniqueFrom(items[1..], seen)
    else [items[0]] + UniqueFrom(items[1..], seen + {items[0]})
  }

  /** The first occurrence of each entry, in order: what a `seen` map keeps. */
  function Unique(items: seq<string>): (r: seq<string>)
    ensures forall i, j :: 0 <= i < j < |r| ==> r[i] != r[j]
    ensures forall x :: x in r <==> x in items
  {
    UniqueFrom(items, {})
  }

  lemma {:induction false} UniqueFromAppend(a: seq<string>, b: seq<string>, seen: set<string>)
    ensures UniqueFrom(a + b, seen) == UniqueFrom(a, seen) + UniqueFrom(b, seen + Elems(a))
    decreases |a|
  {
    if a == [] {
      assert a + b == b;
      assert seen + Elems(a) == seen;
    } else {
      assert (a + b)[0] == a[0];
      assert (a + b)[1..] == a[1..] + b;
      var s := if a[0] in seen then seen else seen + {a[0]};
      UniqueFromAppend(a[1..], b, s);
      assert s + Elems(a[1..]) == seen + Elems(a);
    }
  }

  /** Deduplicating a longer list keeps the deduplicated prefix in front. */
  lemma UniquePrefix(a: seq<string>, b: seq<string>)
    ensures HasPrefixSeq(Unique(a + b), Unique(a))
  {
    UniqueFromAppend(a, b, {});
  }

  /** A sequence without repetitions is left alone. */
  lemma {:induction false} UniqueFromDistinct(items: seq<string>, seen: set<string>)
    requires forall i, j :: 0 <= i < j < |items| ==> items[i] != items[j]
    requires seen !! Elems(items)
    ensures UniqueFrom(items, seen) == items
    decreases |items|
  {
    if items != [] {
      assert items[0] in Elems(items);
      UniqueFromDistinct(items[1..], seen + {items[0]});
      assert [items[0]] + items[1..] == items;
    }
  }

  /** `p` is a prefix of `s`. */
  predicate HasPrefixSeq(s: seq<string>, p: seq<string>)
  {
    |p| <= |s| && s[..|p|] == p
  }

  // ---------------------------------------------------------------------
  // mergeUnique, dedupe, evidenceList
  // ---------------------------------------------------------------------

  /** The spec of `mergeUnique(primary, extras)`. */
  function Merged(primary: seq<string>, extras: seq<string>): seq<string>
  {
    Unique(Cleaned(primary + extras))
  }

  /**
   * `mergeUnique`: every entry trimmed, non-empty and distinct; the entries of
   * `primary` first; every non-blank input present.
   */
  lemma MergedShape(primary: seq<string>, extras: seq<string>)
    ensures var r := Merged(primary, extras);
      (forall y :: y in r ==> y != "" && TrimSpace(y) == y)
      && (forall i, j :: 0 <= i < j < |r| ==> r[i] != r[j])
      && (forall x :: x in primary + extras && TrimSpace(x) != "" ==> TrimSpace(x) in r)
      && HasPrefixSeq(r, Unique(Cleaned(primary)))
  {
    CleanedAppend(primary, extras);
    CleanedShape(primary + extras);
    UniquePrefix(Cleaned(primary), Cleaned(extras));
  }

  /** The list `mergeUnique` deduplicates has a `seen` set equal to what it has kept. */
  lemma UniqueStep(done: seq<string>, x: seq<string>)
    ensures Unique(done + x) == Unique(done) + UniqueFrom(x, Elems(Unique(done)))
  {
    UniqueFromAppend(done, x, {});
    assert Elems(Unique(done)) == {} + Elems(done);
  }

  lemma ElemsSnoc(items: seq<string>, x: string)
    ensures Elems(items + [x]) == Elems(items) + {x}
  {
  }

  /** The cleaned entries of a non-empty list: the first one, trimmed, unless blank, then the rest. */
  lemma CleanedHead(items: seq<string>)
    requires items != []
    ensures var t := TrimSpace(items[0]);
      Cleaned(items) == if t == "" then Cleaned(items[1..]) else [t] + Cleaned(items[1..])
  {
  }

  /** A step of the inner loop that skips entry `k`: it is blank once trimmed, or already seen. */
  lemma MergeSkip(list: seq<string>, k: nat, out: seq<string>, seen: set<string>, total: seq<string>)
    requires k < |list| && (TrimSpace(list[k]) == "" || TrimSpace(list[k]) in seen)
    requires out + UniqueFrom(Cleaned(list[k..]), seen) == total
    ensures out + UniqueFrom(Cleaned(list[k + 1..]), seen) == total
  {
    var rest := list[k..];
    assert rest[0] == list[k] && rest[1..] == list[k + 1..];
    CleanedHead(rest);
  }

  /** A step of the inner loop that appends entry `k`, trimmed, and marks it seen. */
  lemma MergeAppend(list: seq<string>, k: nat, out: seq<string>, seen: set<string>, total: seq<string>)
    requires k < |list| && TrimSpace(list[k]) != "" && TrimSpace(list[k]) !in seen
    requires out + UniqueFrom(Cleaned(list[k..]), seen) == total
    requires seen == Elems(out)
    ensures var item := TrimSpace(list[k]);
      (out + [item]) + UniqueFrom(Cleaned(list[k + 1..]), seen + {item}) == total
      && seen + {item} == Elems(out + [item])
  {
    var rest := list[k..];
    assert rest[0] == list[k] && rest[1..] == list[k + 1..];
    var item := TrimSpace(list[k]);
    CleanedHead(rest);
    var u := [item] + Cleaned(rest[1..]);
    assert u[0] == item && u[1..] == Cleaned(rest[1..]);
    var tail := UniqueFrom(Cleaned(list[k + 1..]), seen + {item});
    assert UniqueFrom(u, seen) == [item] + tail;
    SeqAssoc(out, [item], tail);
    ElemsSnoc(out, item);
  }

  lemma SeqAssoc(a: seq<string>, b: seq<string>, c: seq<string>)
    ensures (a + b) + c == a + (b + c)
  {
  }

  /** The inner loop of `mergeUnique`: append each new trimmed entry of `list`. */
  method MergeList(out: seq<string>, seen: set<string>, list: seq<string>) returns (out': seq<string>, seen': set<string>)
    requires seen == Elems(out)
    ensures out' == out + UniqueFrom(Cleaned(list), seen)
    ensures seen' == Elems(out')
  {
    ghost var total := out + UniqueFrom(Cleaned(list), seen);
    out', seen' := out, seen;
    for k := 0 to |list|
      invariant out' + UniqueFrom(Cleaned(list[k..]), seen') == total
      invariant seen' == Elems(out')
    {
      var item := TrimSpace(list[k]);
      if item == "" || item in seen' {
        MergeSkip(list, k, out', seen', total);
        continue;
      }
      MergeAppend(list, k, out', seen', total);
      seen' := seen' + {item};
      out' := out' + [item];
    }
    assert list[|list|..] == [];
  }

  /** `mergeUnique(primary, extras)`: a `seen` map over both lists in turn. */
  method MergeUnique(primary: seq<string>, extras: seq<string>) returns (out: seq<string>)
    ensures out == Merged(primary, extras)
  {
    var lists := [primary, extras];
    var seen: set<string> := {};
    out := [];
    ghost var consumed: seq<string> := [];
    for l := 0 to |lists|
      invariant consumed == if l == 0 then [] else if l == 1 then primary else primary + extras
      invariant out == Unique(Cleaned(consumed))
      invariant seen == Elems(out)
    {
      CleanedAppend(consumed, lists[l]);
      UniqueStep(Cleaned(consumed), Cleaned(lists[l]));
      out, seen := MergeList(out, seen, lists[l]);
      consumed := consumed + lists[l];
    }
  }

  /** `dedupe(items)`: the first occurrence of each entry, in order. */
  method Dedupe(items: seq<string>) returns (out: seq<string>)
    ensures out == Unique(items)
  {
    var seen: set<string> := {};
    out := [];
    for i := 0 to |items|
      invariant out == Unique(items[..i])
      invariant seen == Elems(out)
    {
      assert items[..i + 1] == items[..i] + [items[i]];
      UniqueStep(items[..i], [items[i]]);
      if items[i] in seen {
        continue;
      }
      seen := seen + {items[i]};
      out := out + [items[i]];
    }
    assert items[..|items|] == items;
  }

  /**
   * `evidenceList(w)`: the non-blank evidence paths in order (`filepath.ToSlash`
   * is the identity with '/' as the separator).
   */
  method EvidenceList(w: WorkItem) returns (items: seq<string>)
    ensures items == NonBlank(w.evidence)
  {
    items := [];
    for i := 0 to |w.evidence|
      invariant items == NonBlank(w.evidence[..i])
    {
      assert w.evidence[..i + 1] == w.evidence[..i] + [w.evidence[i]];
      NonBlankAppend(w.evidence[..i], [w.evidence[i]]);
      if !IsBlank(w.evidence[i]) {
        items := items + [w.evidence[i]];
      }
    }
    assert w.evidence[..|w.evidence|] == w.evidence;
  }

  // ---------------------------------------------------------------------
  // bulletList, scopedList
  // ---------------------------------------------------------------------

  /** Each line followed by a newline, as a `strings.Builder` collects them. */
  function Terminated(lines: seq<string>): (r: string)
    ensures lines == [] <==> r == []
    ensures r != [] ==> r[|r| - 1] == '\n'
  {
    if lines == [] then [] else lines[0] + "\n" + Terminated(lines[1..])
  }

  lemma {:induction false} TerminatedAppend(a: seq<string>, b: seq<string>)
    ensures Terminated(a + b) == Terminated(a) + Terminated(b)
    decreases |a|
  {
    if a == [] {
      assert a + b == b;
    } else {
      assert (a + b)[0] == a[0];
      assert (a + b)[1..] == a[1..] + b;
      TerminatedAppend(a[1..], b);
    }
  }

  /** Collected lines are the lines joined by newlines, plus the final newline. */
  lemma {:induction false} TerminatedJoin(lines: seq<string>)
    requires lines != []
    ensures Terminated(lines) == Join(lines, "\n") + "\n"
    decreases |lines|
  {
    if |lines| > 1 {
      TerminatedJoin(lines[1..]);
    }
  }

  /** A join ends with its last item. */
  lemma {:induction false} JoinLast(items: seq<string>, sep: string)
    requires items != []
    ensures HasSuffix(Join(items, sep), items[|items| - 1])
    decreases |items|
  {
    if |items| > 1 {
      JoinLast(items[1..], sep);
    }
  }

  /** Trimming the final newline off text that ends in one newline gives the text back. */
  lemma TrimOneNewline(s: string)
    requires s != [] && s[|s| - 1] != '\n'
    ensures TrimRight(s + "\n", {'\n'}) == s
  {
    assert (s + "\n")[..|s + "\n"| - 1] == s;
  }

  /** Collected lines with the trailing newlines trimmed are the joined lines, if the last line ends otherwise. */
  lemma TrimTerminated(lines: seq<string>)
    requires lines != []
    requires var last := lines[|lines| - 1]; last != [] && last[|last| - 1] != '\n'
    ensures TrimRight(Terminated(lines), {'\n'}) == Join(lines, "\n")
  {
    TerminatedJoin(lines);
    var j := Join(lines, "\n");
    JoinLast(lines, "\n");
    SuffixLast(j, lines[|lines| - 1]);
    TrimOneNewline(j);
  }

  /** A string ends with the last character of any non-empty suffix. */
  lemma SuffixLast(s: string, p: string)
    requires HasSuffix(s, p) && p != []
    ensures s != [] && s[|s| - 1] == p[|p| - 1]
  {
    assert s[|s| - |p|..][|p| - 1] == s[|s| - 1];
  }

  /** The list lines `bulletList` writes: `- item` per non-blank entry, in order. */
  function BulletLines(items: seq<string>): seq<string>
  {
    if items == [] then []
    else (if IsBlank(items[0]) then [] else ["- " + items[0]]) + BulletLines(items[1..])
  }

  /** Line `i` of the list is `- ` and the `i`-th non-blank entry. */
  lemma {:induction false} BulletLinesShape(items: seq<string>)
    ensures |BulletLines(items)| == |NonBlank(items)|
    ensures forall i :: 0 <= i < |BulletLines(items)| ==> BulletLines(items)[i] == "- " + NonBlank(items)[i]
    decreases |items|
  {
    if items != [] {
      BulletLinesShape(items[1..]);
    }
  }

  lemma {:induction false} BulletLinesAppend(a: seq<string>, b: seq<string>)
    ensures BulletLines(a + b) == BulletLines(a) + BulletLines(b)
    decreases |a|
  {
    if a == [] {
      assert a + b == b;
    } else {
      assert (a + b)[0] == a[0];
      assert (a + b)[1..] == a[1..] + b;
      BulletLinesAppend(a[1..], b);
    }
  }

  /** The spec of `bulletList(items)`. */
  function Bullets(items: seq<string>): string
  {
    if |items| == 0 then NoItems
    else
      var b := Terminated(BulletLines(items));
      if b == "" then NoItems else TrimRight(b, {'\n'})
  }

  /** `bulletList`: "- None" for an empty or all-blank list. */
  lemma BulletsNone(items: seq<string>)
    requires forall i :: 0 <= i < |items| ==> IsBlank(items[i])
    ensures Bullets(items) == NoItems
  {
    NonBlankOfBlanks(items);
    BulletLinesShape(items);
  }

  /**
   * `bulletList`: otherwise one `- item` line per non-blank entry, in order and
   * untrimmed, joined by newlines; only newlines the last entry itself ends
   * with are lost to the final `TrimRight`.
   */
  lemma BulletsLines(items: seq<string>)
    requires NonBlank(items) != []
    ensures var kept := NonBlank(items); var last := kept[|kept| - 1];
      last[|last| - 1] != '\n' ==> Bullets(items) == Join(BulletLines(items), "\n")
  {
    var kept := NonBlank(items);
    var last := kept[|kept| - 1];
    var lines := BulletLines(items);
    BulletLinesShape(items);
    if last[|last| - 1] != '\n' {
      var lastLine := lines[|lines| - 1];
      assert lastLine == "- " + last;
      assert lastLine[|lastLine| - 1] == last[|last| - 1];
      TrimTerminated(lines);
    }
  }

  /** One more entry adds its `- item` line, unless it is blank. */
  lemma BulletStep(items: seq<string>, i: nat)
    requires i < |items|
    ensures IsBlank(items[i]) ==> Terminated(BulletLines(items[..i + 1])) == Terminated(BulletLines(items[..i]))
    ensures !IsBlank(items[i]) ==>
      Terminated(BulletLines(items[..i + 1])) == Terminated(BulletLines(items[..i])) + "- " + items[i] + "\n"
  {
    assert items[..i + 1] == items[..i] + [items[i]];
    BulletLinesAppend(items[..i], [items[i]]);
    TerminatedAppend(BulletLines(items[..i]), BulletLines([items[i]]));
    var x := items[i];
    assert [x][1..] == [];
    if !IsBlank(x) {
      assert BulletLines([x]) == ["- " + x];
      TerminatedOne("- " + x);
      BulletLineAssoc(Terminated(BulletLines(items[..i])), x);
    }
  }

  lemma TerminatedOne(line: string)
    ensures Terminated([line]) == line + "\n"
  {
    assert [line][1..] == [];
    assert line + "\n" + [] == line + "\n";
  }

  lemma BulletLineAssoc(t: string, x: string)
    ensures t + ("- " + x + "\n") == t + "- " + x + "\n"
  {
  }

  /** `bulletList(items)`: a `strings.Builder` loop, then the final newlines trimmed. */
  method BulletList(items: seq<string>) returns (r: string)
    ensures r == Bullets(items)
  {
    if |items| == 0 {
      return NoItems;
    }
    var b := "";
    for i := 0 to |items|
      invariant b == Terminated(BulletLines(items[..i]))
    {
      BulletStep(items, i);
      if IsBlank(items[i]) {
        continue;
      }
      b := b + "- " + items[i] + "\n";
    }
    assert items[..|items|] == items;
    if |b| == 0 {
      return NoItems;
    }
    r := TrimRight(b, {'\n'});
  }

  /** The rules of one scope: `None` or the rules joined by "; ". */
  function RulesText(rules: seq<string>): string
  {
    if |rules| == 0 then "None" else Join(rules, "; ")
  }

  /** One `- scope: rules` line of `scopedList`. */
  function ScopeLineText(scope: string, rules: seq<string>): string
  {
    "- " + scope + ": " + RulesText(rules)
  }

  /** The lines of `scopedList`, for the given key order. */
  function ScopeLines(scopes: map<string, seq<string>>, keys: seq<string>): seq<string>
    requires forall k :: k in keys ==> k in scopes
  {
    if keys == [] then [] else [ScopeLineText(keys[0], scopes[keys[0]])] + ScopeLines(scopes, keys[1..])
  }

  /** Line `i` is the line of the `i`-th key. */
  lemma {:induction false} ScopeLinesShape(scopes: map<string, seq<string>>, keys: seq<string>)
    requires forall k :: k in keys ==> k in scopes
    ensures |ScopeLines(scopes, keys)| == |keys|
    ensures forall i :: 0 <= i < |keys| ==> ScopeLines(scopes, keys)[i] == ScopeLineText(keys[i], scopes[keys[i]])
    decreases |keys|
  {
    if keys != [] {
      ScopeLinesShape(scopes, keys[1..]);
    }
  }

  /** The number of lines, and line `i` alone. */
  lemma ScopeLineAt(scopes: map<string, seq<string>>, keys: seq<string>, i: nat)
    requires forall k :: k in keys ==> k in scopes
    requires i < |keys|
    ensures |ScopeLines(scopes, keys)| == |keys|
    ensures ScopeLines(scopes, keys)[i] == ScopeLineText(keys[i], scopes[keys[i]])
  {
    ScopeLinesShape(scopes, keys);
  }

  lemma {:induction false} ScopeLinesAppend(scopes: map<string, seq<string>>, a: seq<string>, b: seq<string>)
    requires forall k :: k in a + b ==> k in scopes
    ensures ScopeLines(scopes, a + b) == ScopeLines(scopes, a) + ScopeLines(scopes, b)
    decreases |a|
  {
    if a == [] {
      assert a + b == b;
    } else {
      assert (a + b)[0] == a[0];
      assert (a + b)[1..] == a[1..] + b;
      ScopeLinesAppend(scopes, a[1..], b);
    }
  }

  /** The spec of `scopedList(scopes)`: one line per scope, in ascending key order. */
  ghost function Scoped(scopes: map<string, seq<string>>): string
  {
    if |scopes| == 0 then NoItems
    else
      var keys := SortedOf(scopes.Keys);
      TrimRight(Terminated(ScopeLines(scopes, keys)), {'\n'})
  }

  /**
   * `scopedList`: "- None" for no scopes; otherwise `- scope: r1; r2` (or
   * `None`) per scope in ascending order, joined by newlines, when the last
   * scope's rules do not end with a newline.
   */
  lemma ScopedLines(scopes: map<string, seq<string>>)
    ensures |scopes| == 0 ==> Scoped(scopes) == NoItems
    ensures var keys := SortedOf(scopes.Keys);
      |scopes| > 0 && !HasSuffix(RulesText(scopes[keys[|keys| - 1]]), "\n") ==>
        Sorted(keys) && Scoped(scopes) == Join(ScopeLines(scopes, keys), "\n")
  {
    var keys := SortedOf(scopes.Keys);
    if |scopes| > 0 && !HasSuffix(RulesText(scopes[keys[|keys| - 1]]), "\n") {
      ScopeLinesJoined(scopes, keys);
    }
  }

  /** Trimming the final newlines of the written lines joins them, when the last rules do not end with one. */
  lemma {:induction false} ScopeLinesJoined(scopes: map<string, seq<string>>, keys: seq<string>)
    requires keys != [] && forall k :: k in keys ==> k in scopes
    requires !HasSuffix(RulesText(scopes[keys[|keys| - 1]]), "\n")
    ensures TrimRight(Terminated(ScopeLines(scopes, keys)), {'\n'}) == Join(ScopeLines(scopes, keys), "\n")
  {
    var lines := ScopeLines(scopes, keys);
    ScopeLinesShape(scopes, keys);
    var last := keys[|keys| - 1];
    ScopeLineEnd(last, scopes[last]);
    TrimTerminated(lines);
  }

  /** A scope line ends with the last character of its rules text. */
  lemma ScopeLineEnd(scope: string, rules: seq<string>)
    requires !HasSuffix(RulesText(rules), "\n")
    ensures var l := ScopeLineText(scope, rules); l != [] && l[|l| - 1] != '\n'
  {
    var t := RulesText(rules);
    var l := ScopeLineText(scope, rules);
    var head := "- " + scope + ": ";
    assert l == head + t;
    if t == [] {
      assert l[|l| - 1] == ' ';
    } else {
      assert l[|l| - 1] == t[|t| - 1];
      assert t[|t| - 1..] != "\n";
    }
  }

  /** One `- scope: rules` line, as the loop of `scopedList` writes it. */
  method ScopeLine(scope: string, items: seq<string>) returns (line: string)
    ensures line == ScopeLineText(scope, items)
  {
    line := "- " + scope + ": ";
    if |items| == 0 {
      line := line + "None";
    } else {
      line := line + Join(items, "; ");
    }
  }

  /** One step of a loop that writes each line followed by a newline. */
  lemma TerminatedStep(b: string, lines: seq<string>, i: nat, line: string)
    requires i < |lines| && line == lines[i]
    requires b + Terminated(lines[i..]) == Terminated(lines)
    ensures (b + (line + "\n")) + Terminated(lines[i + 1..]) == Terminated(lines)
  {
    assert lines[i..][1..] == lines[i + 1..];
  }

  /** The `strings.Builder` loop of `scopedList`: each scope's line, then a newline. */
  method WriteScopeLines(scopes: map<string, seq<string>>, keys: seq<string>) returns (b: string)
    requires forall k :: k in keys ==> k in scopes
    ensures b == Terminated(ScopeLines(scopes, keys))
  {
    ghost var lines := ScopeLines(scopes, keys);
    if keys != [] {
      ScopeLineAt(scopes, keys, 0);
    }
    b := "";
    for i := 0 to |keys|
      invariant |lines| == |keys|
      invariant b + Terminated(lines[i..]) == Terminated(lines)
    {
      var line := ScopeLine(keys[i], scopes[keys[i]]);
      ScopeLineAt(scopes, keys, i);
      TerminatedStep(b, lines, i, line);
      b := b + (line + "\n");
    }
    assert lines[|keys|..] == [];
  }

  /** `scopedList(scopes)`: sort the keys, then a `strings.Builder` loop. */
  method ScopedList(scopes: map<string, seq<string>>) returns (r: string)
    ensures r == Scoped(scopes)
  {
    if |scopes| == 0 {
      return NoItems;
    }
    var keys := SortedKeys(scopes.Keys);
    var b := WriteScopeLines(scopes, keys);
    r := TrimRight(b, {'\n'});
  }

  // ---------------------------------------------------------------------
  // likelyFiles
  // ---------------------------------------------------------------------

  const UiTerms := ["ui", "react", "component", "css", "html", "frontend"]
  const UiFiles := ["src/ui/", "web/", "frontend/", "components/"]
  const BackendTerms := ["api", "server", "backend", "service", "timeout", "latency"]
  const BackendFiles := ["cmd/", "internal/", "api/", "server/"]
  const TestTerms := ["test", "bug", "fix", "regression"]
  const TestFiles := ["tests/", "internal/", "cmd/"]
  const FallbackFiles := ["cmd/", "internal/", "pkg/"]

  /** Some term occurs in the text as a substring. */
  predicate MentionsAny(text: string, terms: seq<string>)
  {
    exists i :: 0 <= i < |terms| && Contains(text, terms[i])
  }

  /** `containsAny(text, terms)`: stop at the first term that occurs. */
  method ContainsAny(text: string, terms: seq<string>) returns (r: bool)
    ensures r <==> MentionsAny(text, terms)
  {
    for i := 0 to |terms|
      invariant forall j :: 0 <= j < i ==> !Contains(text, terms[j])
    {
      if Contains(text, terms[i]) {
        return true;
      }
    }
    return false;
  }

  /** The text `likelyFiles` searches: the title and the intents, lower-cased. */
  function SearchText(w: WorkItem): string
  {
    ToLower(w.title + " " + Join(w.intent, " "))
  }

  /** The directories `likelyFiles` collects before deduplicating them. */
  function Candidates(text: string): (r: seq<string>)
    ensures r != []
  {
    var files := (if MentionsAny(text, UiTerms) then UiFiles else [])
      + (if MentionsAny(text, BackendTerms) then BackendFiles else [])
      + (if MentionsAny(text, TestTerms) then TestFiles else []);
    if files == [] then FallbackFiles else files
  }

  /** `likelyFiles(w)`: the directory hints for each group of terms the text mentions, each once. */
  method LikelyFiles(w: WorkItem) returns (files: seq<string>)
    ensures files == Unique(Candidates(SearchText(w)))
  {
    var text := ToLower(w.title + " " + Join(w.intent, " "));
    var all: seq<string> := [];
    var ui := ContainsAny(text, UiTerms);
    if ui {
      all := all + UiFiles;
    }
    var backend := ContainsAny(text, BackendTerms);
    if backend {
      all := all + BackendFiles;
    }
    var tests := ContainsAny(text, TestTerms);
    if tests {
      all := all + TestFiles;
    }
    assert all == (if ui then UiFiles else []) + (if backend then BackendFiles else []) + (if tests then TestFiles else []);
    if |all| == 0 {
      all := all + FallbackFiles;
    }
    assert text == SearchText(w);
    assert all == Candidates(text);
    files := Dedupe(all);
  }

  /**
   * `likelyFiles`: never empty, no repeats; every hint of each group whose
   * terms occur; nothing but the groups' hints; and the fallback exactly when
   * no term occurs.
   */
  lemma LikelyFilesShape(text: string)
    ensures var r := Unique(Candidates(text));
      && r != []
      && (MentionsAny(text, UiTerms) ==> forall f :: f in UiFiles ==> f in r)
      && (MentionsAny(text, BackendTerms) ==> forall f :: f in BackendFiles ==> f in r)
      && (MentionsAny(text, TestTerms) ==> forall f :: f in TestFiles ==> f in r)
      && (forall f :: f in r ==> f in UiFiles + BackendFiles + TestFiles + FallbackFiles)
      && (r == FallbackFiles <==>
          !MentionsAny(text, UiTerms) && !MentionsAny(text, BackendTerms) && !MentionsAny(text, TestTerms))
  {
    var c := Candidates(text);
    var r := Unique(c);
    assert c[0] in r;
    if MentionsAny(text, UiTerms) {
      assert "src/ui/" in r && "src/ui/" !in FallbackFiles;
    } else if MentionsAny(text, BackendTerms) {
      assert "api/" in r && "api/" !in FallbackFiles;
    } else if MentionsAny(text, TestTerms) {
      assert "tests/" in r && "tests/" !in FallbackFiles;
    } else {
      UniqueFromDistinct(FallbackFiles, {});
    }
  }

  /** A backend task that is also a bug fix lists `cmd/` and `internal/` once, in first-seen order. */
  lemma BackendFixFiles(text: string)
    requires !MentionsAny(text, UiTerms) && MentionsAny(text, BackendTerms) && MentionsAny(text, TestTerms)
    ensures Unique(Candidates(text)) == ["cmd/", "internal/", "api/", "server/", "tests/"]
  {
    assert Candidates(text) == BackendFiles + TestFiles;
    BackendThenTests();
  }

  lemma BackendThenTests()
    ensures Unique(BackendFiles + TestFiles) == ["cmd/", "internal/", "api/", "server/", "tests/"]
  {
    UniqueFromAppend(BackendFiles, TestFiles, {});
    assert {} + Elems(BackendFiles) == Elems(BackendFiles);
    BackendFilesKept();
    OnlyTestsIsNew();
  }

  lemma BackendFilesKept()
    ensures UniqueFrom(BackendFiles, {}) == BackendFiles
  {
    BackendFilesDistinct();
    UniqueFromDistinct(BackendFiles, {});
  }

  lemma BackendFilesDistinct()
    ensures forall i, j :: 0 <= i < j < |BackendFiles| ==> BackendFiles[i] != BackendFiles[j]
  {
    var f := BackendFiles;
    assert f[0][0] == 'c' && f[1][0] == 'i' && f[2][0] == 'a' && f[3][0] == 's';
  }

  lemma OnlyTestsIsNew()
    ensures UniqueFrom(TestFiles, Elems(BackendFiles)) == ["tests/"]
  {
    var s := Elems(BackendFiles);
    assert "cmd/" in s && "internal/" in s && "tests/" !in s;
    assert UniqueFrom(["cmd/"], s + {"tests/"}) == [];
    assert UniqueFrom(["internal/", "cmd/"], s + {"tests/"}) == [];
  }

  /** Terms match as substrings, not words: "build" mentions "ui". */
  lemma SubstringsMatch()
    ensures MentionsAny("build", UiTerms)
  {
    assert OccursAt("build", "ui", 1);
    ContainsIffOccurs("build", "ui");
    assert Contains("build", UiTerms[0]);
  }

  // ---------------------------------------------------------------------
  // archSummary, healthLine, summaryLine
  // ---------------------------------------------------------------------

  const NotDocumented := "Not documented."

  /** A non-blank string stays non-blank with anything after it. */
  lemma NotBlankBefore(x: string, b: string)
    requires !IsBlank(x)
    ensures !IsBlank(x + b)
  {
    var i :| 0 <= i < |x| && x[i] !in Spaces;
    assert (x + b)[i] == x[i];
  }

  /** A non-blank string stays non-blank with anything before it. */
  lemma NotBlankAfter(a: string, x: string)
    requires !IsBlank(x)
    ensures !IsBlank(a + x)
  {
    var i :| 0 <= i < |x| && x[i] !in Spaces;
    assert (a + x)[|a| + i] == x[i];
  }

  /**
   * `archSummary(a)`: the non-blank style and version joined by a space, then
   * " — " and the notes when those are not blank; "Not documented." when all
   * three are blank.
   */
  function ArchSummary(a: Architecture): (r: string)
    ensures IsBlank(a.style) && IsBlank(a.version) && IsBlank(a.notes) ==> r == NotDocumented
    ensures !(IsBlank(a.style) && IsBlank(a.version) && IsBlank(a.notes)) ==> !IsBlank(r)
    ensures !IsBlank(a.style) ==> HasPrefix(r, a.style)
    ensures !IsBlank(a.notes) ==> HasSuffix(r, a.notes)
    ensures !IsBlank(a.version) ==> Contains(r, a.version)
  {
    var summary := ArchText(a);
    ArchTextFacts(a);
    if IsBlank(summary) then NotDocumented else summary
  }

  /**
   * The exact summary in every case `archSummary` distinguishes: style and
   * version joined by one space, the notes after " — ", the notes alone when
   * neither style nor version is given.
   */
  lemma ArchSummaryExact(a: Architecture)
    ensures !IsBlank(a.style) && !IsBlank(a.version) && !IsBlank(a.notes) ==>
      ArchSummary(a) == a.style + " " + a.version + " \U{2014} " + a.notes
    ensures !IsBlank(a.style) && !IsBlank(a.version) && IsBlank(a.notes) ==>
      ArchSummary(a) == a.style + " " + a.version
    ensures !IsBlank(a.style) && IsBlank(a.version) && !IsBlank(a.notes) ==>
      ArchSummary(a) == a.style + " \U{2014} " + a.notes
    ensures !IsBlank(a.style) && IsBlank(a.version) && IsBlank(a.notes) ==> ArchSummary(a) == a.style
    ensures IsBlank(a.style) && !IsBlank(a.version) && !IsBlank(a.notes) ==>
      ArchSummary(a) == a.version + " \U{2014} " + a.notes
    ensures IsBlank(a.style) && !IsBlank(a.version) && IsBlank(a.notes) ==> ArchSummary(a) == a.version
    ensures IsBlank(a.style) && IsBlank(a.version) && !IsBlank(a.notes) ==> ArchSummary(a) == a.notes
  {
    ArchTextFacts(a);
    if !IsBlank(a.style) {
      JoinStyle(a);
    }
  }

  /** The summary before the "Not documented." fallback, as `archSummary` builds it. */
  function ArchText(a: Architecture): string
  {
    var parts := (if IsBlank(a.style) then [] else [a.style]) + (if IsBlank(a.version) then [] else [a.version]);
    var joined := Join(parts, " ");
    if IsBlank(a.notes) then joined
    else if joined != "" then joined + " \U{2014} " + a.notes
    else a.notes
  }

  lemma ArchTextFacts(a: Architecture)
    ensures !IsBlank(a.style) ==> !IsBlank(ArchText(a)) && HasPrefix(ArchText(a), a.style)
    ensures !IsBlank(a.version) ==> !IsBlank(ArchText(a)) && Contains(ArchText(a), a.version)
    ensures !IsBlank(a.notes) ==> !IsBlank(ArchText(a)) && HasSuffix(ArchText(a), a.notes)
  {
    if !IsBlank(a.style) {
      ArchTextStyle(a);
    }
    if !IsBlank(a.version) {
      ArchTextVersion(a);
    }
    if !IsBlank(a.notes) {
      ArchTextNotes(a);
    }
  }

  lemma ArchTextStyle(a: Architecture)
    requires !IsBlank(a.style)
    ensures !IsBlank(ArchText(a)) && HasPrefix(ArchText(a), a.style)
  {
    var v := if IsBlank(a.version) then "" else " " + a.version;
    var tail := if IsBlank(a.notes) then "" else " \U{2014} " + a.notes;
    JoinStyle(a);
    var joined := a.style + v;
    assert ArchText(a) == joined + tail by {
      if IsBlank(a.notes) {
        assert joined + "" == joined;
      } else {
        assert joined != "";
        StrAssoc(joined, " \U{2014} ", a.notes);
      }
    }
    StrAssoc(a.style, v, tail);
    NotBlankBefore(a.style, v + tail);
  }

  /** The style and version `archSummary` joins, with the style first. */
  lemma JoinStyle(a: Architecture)
    requires !IsBlank(a.style)
    ensures var v := if IsBlank(a.version) then "" else " " + a.version;
      Join((if IsBlank(a.style) then [] else [a.style]) + (if IsBlank(a.version) then [] else [a.version]), " ") == a.style + v
  {
    if IsBlank(a.version) {
      assert [a.style] + [] == [a.style];
      assert a.style + "" == a.style;
    } else {
      var parts := [a.style] + [a.version];
      assert parts[1..] == [a.version];
      StrAssoc(a.style, " ", a.version);
    }
  }

  lemma StrAssoc(a: string, b: string, c: string)
    ensures (a + b) + c == a + (b + c)
  {
  }

  lemma ArchTextVersion(a: Architecture)
    requires !IsBlank(a.version)
    ensures !IsBlank(ArchText(a)) && Contains(ArchText(a), a.version)
  {
    var head := if IsBlank(a.style) then "" else a.style + " ";
    var tail := if IsBlank(a.notes) then "" else " \U{2014} " + a.notes;
    var parts := if IsBlank(a.style) then [a.version] else [a.style, a.version];
    assert Join(parts, " ") == head + a.version by {
      if !IsBlank(a.style) {
        assert parts[1..] == [a.version];
      }
    }
    assert ArchText(a) == head + a.version + tail;
    OccursInMiddle(head, a.version, tail);
    NotBlankBefore(head + a.version, tail) by {
      NotBlankAfter(head, a.version);
    }
  }

  lemma ArchTextNotes(a: Architecture)
    requires !IsBlank(a.notes)
    ensures !IsBlank(ArchText(a)) && HasSuffix(ArchText(a), a.notes)
  {
    var parts := (if IsBlank(a.style) then [] else [a.style]) + (if IsBlank(a.version) then [] else [a.version]);
    var joined := Join(parts, " ");
    var head := if joined != "" then joined + " \U{2014} " else "";
    assert ArchText(a) == head + a.notes;
    NotBlankAfter(head, a.notes);
  }

  /** The template's `healthLine`: "unknown" for a blank status. */
  function HealthLine(status: string): (r: string)
    ensures !IsBlank(r)
    ensures !IsBlank(status) ==> r == status
    ensures IsBlank(status) ==> r == "unknown"
  {
    if IsBlank(status) then
      assert "unknown"[0] !in Spaces;
      "unknown"
    else status
  }

  const NotProvided := "Not provided."

  /** The first non-blank part, or "Not provided.". */
  function FirstNonBlank(parts: seq<string>): (r: string)
  {
    if parts == [] then NotProvided
    else if !IsBlank(parts[0]) then parts[0]
    else FirstNonBlank(parts[1..])
  }

  /** `summaryLine`: the first non-blank part, every earlier part blank; "Not provided." when all are. */
  lemma {:induction false} FirstNonBlankIsFirst(parts: seq<string>)
    ensures var r := FirstNonBlank(parts);
      (r == NotProvided && forall j :: 0 <= j < |parts| ==> IsBlank(parts[j]))
      || exists i :: 0 <= i < |parts| && r == parts[i] && !IsBlank(r) && forall j :: 0 <= j < i ==> IsBlank(parts[j])
    decreases |parts|
  {
    if parts != [] && IsBlank(parts[0]) {
      FirstNonBlankIsFirst(parts[1..]);
      var r := FirstNonBlank(parts);
      if exists i :: 0 <= i < |parts[1..]| && r == parts[1..][i] && !IsBlank(r) && forall j :: 0 <= j < i ==> IsBlank(parts[1..][j]) {
        var i :| 0 <= i < |parts[1..]| && r == parts[1..][i] && !IsBlank(r) && forall j :: 0 <= j < i ==> IsBlank(parts[1..][j]);
        assert forall j :: 0 <= j < i + 1 ==> IsBlank(parts[j]) by {
          forall j | 0 <= j < i + 1 ensures IsBlank(parts[j]) {
            if j > 0 {
              assert parts[j] == parts[1..][j - 1];
            }
          }
        }
        assert r == parts[i + 1];
      } else {
        assert forall j :: 0 <= j < |parts| ==> IsBlank(parts[j]) by {
          forall j | 0 <= j < |parts| ensures IsBlank(parts[j]) {
            if j > 0 {
              assert parts[j] == parts[1..][j - 1];
            }
          }
        }
      }
    }
  }

  /** The template's `summaryLine(parts...)`: return the first non-blank part. */
  method SummaryLine(parts: seq<string>) returns (r: string)
    ensures r == FirstNonBlank(parts)
  {
    for i := 0 to |parts|
      invariant FirstNonBlank(parts[i..]) == FirstNonBlank(parts)
    {
      assert parts[i..][1..] == parts[i + 1..];
      if !IsBlank(parts[i]) {
        return parts[i];
      }
    }
    assert parts[|parts|..] == [];
    return NotProvided;
  }

  // ---------------------------------------------------------------------
  // The prompt template
  // ---------------------------------------------------------------------

  /** The constraints every prompt carries, after the context's own. */
  const BaselineConstraints := [
    "No network access; offline-only CLI.",
    "Do not embed logs; reference evidence paths.",
    "Keep prompts token-cheap; expand only by profile."
  ]

  /** The acceptance criterion used when the work item lists none. */
  const DefaultAcceptance := ["Work item completes without expanding scope."]

  /** The quality gates used when the context lists none. */
  const DefaultQualityGates := ["All tests pass.", "No breaking API changes."]

  /** The profile an empty profile name stands for. */
  const DefaultProfile := "cheap"

  /** `PromptData`: what the template is executed on. */
  datatype PromptData = PromptData(
    profile: string,
    workItem: WorkItem,
    state: State,
    context: Context,
    constraints: seq<string>,
    likelyFiles: seq<string>,
    evidence: seq<string>,
    qualityGates: seq<string>,
    taskAcceptance: seq<string>,
    healthStatus: string,
    healthIssues: seq<string>)

  /** The profile `includeArch` and `includeStandards` look up: Go's zero value when absent. */
  function ProfileOf(profiles: map<string, PromptProfile>, name: string): PromptProfile
  {
    if name in profiles then profiles[name] else PromptProfile("", false, false, "")
  }

  /** The first line of the template. */
  function TaskLine(w: WorkItem): string
  {
    "Task: " + w.title + " (" + w.id + ")\n"
  }

  /** The fixed part of the template, from `Task:` to the blank line after `Task Acceptance:`. */
  function HeadText(w: WorkItem, health: string, summary: string, constraints: string, gates: string,
                    evidence: string, files: string, acceptance: string): string
  {
    TaskLine(w)
    + ("Intent: " + Join(w.intent, ", ") + "\n"
    + "Status: " + w.status + "\n"
    + "Health: " + health + "\n"
    + "Last Summary: " + summary + "\n"
    + "\nConstraints:\n" + constraints + "\n"
    + "\nQuality Gates:\n" + gates + "\n"
    + "\nEvidence (paths only):\n" + evidence + "\n"
    + "\nLikely Files:\n" + files + "\n"
    + "\nTask Acceptance:\n" + acceptance + "\n\n")
  }

  /** `{{if .Context.Project.Summary}}`: a non-empty string is true, blank or not. */
  function ProjectSection(summary: string): string
  {
    if summary != "" then "Project Context:\n- " + summary + "\n" else ""
  }

  function ArchSection(shown: bool, a: Architecture): string
  {
    if shown then "\nArchitecture:\n- " + ArchSummary(a) else ""
  }

  ghost function StandardsSection(shown: bool, standards: map<string, seq<string>>): string
  {
    if shown then "\nStandards:\n" + Scoped(standards) else ""
  }

  function IssuesSection(issues: seq<string>): string
  {
    if |issues| > 0 then "\n\nHealth Issues:\n" + Bullets(issues) else ""
  }

  /** The head of the template filled in from the data. */
  function Head(data: PromptData): string
  {
    HeadText(data.workItem, HealthLine(data.healthStatus),
      FirstNonBlank([data.state.lastSummary, data.workItem.lastSummary]),
      Bullets(data.constraints), Bullets(data.qualityGates), Bullets(data.evidence),
      Bullets(data.likelyFiles), Bullets(data.taskAcceptance))
  }

  /** The `{{if}}` blocks after the head, switched by the summary, the profile and the issues. */
  ghost function Sections(data: PromptData, p: PromptProfile): string
  {
    ProjectSection(data.context.project.summary)
    + ArchSection(p.includeArchitecture, data.context.architecture)
    + StandardsSection(p.includeStandards, data.context.standards)
    + IssuesSection(data.healthIssues)
  }

  /** The template of `prompt.go` executed on `data`, with the profiles `BuildPrompt` loaded. */
  ghost function Render(data: PromptData, profiles: map<string, PromptProfile>): string
  {
    Head(data) + Sections(data, ProfileOf(profiles, data.profile)) + "\n"
  }

  /** The head of the template: the actions from `Task:` to `Task Acceptance:`. */
  method RenderHead(data: PromptData) returns (text: string)
    ensures text == Head(data)
  {
    var w := data.workItem;
    var summary := SummaryLine([data.state.lastSummary, w.lastSummary]);
    var constraints := BulletList(data.constraints);
    var gates := BulletList(data.qualityGates);
    var evidence := BulletList(data.evidence);
    var files := BulletList(data.likelyFiles);
    var acceptance := BulletList(data.taskAcceptance);
    text := HeadText(w, HealthLine(data.healthStatus), summary, constraints, gates, evidence, files, acceptance);
  }

  /** The `{{if}}` blocks of the template after the head. */
  method RenderSections(data: PromptData, p: PromptProfile) returns (text: string)
    ensures text == Sections(data, p)
  {
    var project := "";
    if data.context.project.summary != "" {
      project := "Project Context:\n- " + data.context.project.summary + "\n";
    }
    var arch := "";
    if p.includeArchitecture {
      arch := "\nArchitecture:\n- " + ArchSummary(data.context.architecture);
    }
    var standards := "";
    if p.includeStandards {
      var scoped := ScopedList(data.context.standards);
      standards := "\nStandards:\n" + scoped;
    }
    var issues := "";
    if |data.healthIssues| > 0 {
      var bullets := BulletList(data.healthIssues);
      issues := "\n\nHealth Issues:\n" + bullets;
    }
    text := project + arch + standards + issues;
  }

  /** `tpl.Execute(&buf, data)`: the template's actions evaluated in order. */
  method RenderPrompt(data: PromptData, profiles: map<string, PromptProfile>) returns (text: string)
    ensures text == Render(data, profiles)
  {
    var head := RenderHead(data);
    var sections := RenderSections(data, ProfileOf(profiles, data.profile));
    text := head + sections + "\n";
  }

  // ---------------------------------------------------------------------
  // BuildPrompt
  // ---------------------------------------------------------------------

  /** The data `BuildPrompt` fills in from the loaded records and the defaults. */
  function PromptDataFor(profile: string, w: WorkItem, state: State, ctx: Context): PromptData
  {
    PromptData(
      profile, w, state, ctx,
      Merged(ctx.constraints, BaselineConstraints),
      Unique(Candidates(SearchText(w))),
      NonBlank(w.evidence),
      if |ctx.qualityGates| == 0 then DefaultQualityGates else ctx.qualityGates,
      if |w.acceptanceCriteria| == 0 then DefaultAcceptance else w.acceptanceCriteria,
      state.health.status,
      state.health.issues)
  }

  /**
   * What `BuildPrompt(profileName)` renders, or the error it stops at: the
   * profiles, the profile, the state, the active item, the item, the context,
   * in that order.
   */
  ghost function PromptFor(d: Disk, profileName: string): Result<string>
    reads d
  {
    var name := if profileName == "" then DefaultProfile else profileName;
    var profiles :- LoadPromptProfiles(d);
    if name !in profiles.profiles then Err(ProfileNotFound(name))
    else
      var state :- LoadState(d);
      if state.activeWorkItem == "" then Err(NoActiveWorkItem)
      else
        var wi :- LoadWorkItem(d, state.activeWorkItem);
        var ctx :- LoadContext(d);
        Ok(Render(PromptDataFor(name, wi.meta, state, ctx), profiles.profiles))
  }

  /**
   * `BuildPrompt(profileName)`: on success the rendered prompt is written to
   * `.agent/exports/current.prompt.md` and nothing else changes; every error
   * leaves the files as they were, and an error before rendering is returned
   * as it was met.
   */
  method BuildPrompt(d: Disk, profileName: string) returns (r: Result<string>)
    modifies d
    ensures old(PromptFor(d, profileName)).Err? ==>
      r == Err(old(PromptFor(d, profileName)).error) && d.files == old(d.files) && d.dirs == old(d.dirs)
    ensures r.Ok? ==>
      && old(PromptFor(d, profileName)).Ok? && r.value == PromptPath
      && d.files == old(d.files)[PromptPath := old(PromptFor(d, profileName)).value]
    ensures r.Ok? ==> d.dirs == old(d.dirs) + DirChain(ExportsDir)
    ensures old(PromptFor(d, profileName)).Ok? && !(DirChain(ExportsDir) !! old(d.files).Keys) ==>
      r.Err? && r.error.NotADirectory? && d.dirs == old(d.dirs)
    ensures r.Err? ==> d.files == old(d.files)
    ensures r.Err? ==> d.dirs == old(d.dirs) || d.dirs == old(d.dirs) + DirChain(ExportsDir)
  {
    var text := RenderFor(d, profileName);
    if text.Err? {
      return Err(text.error);
    }
    var dest := TouchPromptFile(d);
    if dest.Err? {
      return Err(dest.error);
    }
    ghost var touched := d.dirs;
    var err := d.WriteFile(dest.value, text.value);
    assert d.dirs == touched;
    if err.Some? {
      return Err(err.value);
    }
    return Ok(dest.value);
  }

  /** The loading and rendering half of `BuildPrompt`: it reads the files and changes nothing. */
  method RenderFor(d: Disk, profileName: string) returns (r: Result<string>)
    ensures r == PromptFor(d, profileName)
  {
    var name := profileName;
    if name == "" {
      name := DefaultProfile;
    }
    var profiles := LoadPromptProfiles(d);
    if profiles.Err? {
      return Err(profiles.error);
    }
    if name !in profiles.value.profiles {
      return Err(ProfileNotFound(name));
    }
    var state := LoadState(d);
    if state.Err? {
      return Err(state.error);
    }
    if state.value.activeWorkItem == "" {
      return Err(NoActiveWorkItem);
    }
    var wiFile := LoadWorkItem(d, state.value.activeWorkItem);
    if wiFile.Err? {
      return Err(wiFile.error);
    }
    var ctx := LoadContext(d);
    if ctx.Err? {
      return Err(ctx.error);
    }
    var text := PromptText(name, wiFile.value.meta, state.value, ctx.value, profiles.value.profiles);
    r := Ok(text);
  }

  /** The prompt data `BuildPrompt` assembles from what it loaded, rendered. */
  method PromptText(name: string, w: WorkItem, state: State, ctx: Context, profiles: map<string, PromptProfile>)
    returns (text: string)
    ensures text == Render(PromptDataFor(name, w, state, ctx), profiles)
  {
    var constraints := MergeUnique(ctx.constraints, BaselineConstraints);
    var acceptance := w.acceptanceCriteria;
    if |acceptance| == 0 {
      acceptance := DefaultAcceptance;
    }
    var gates := ctx.qualityGates;
    if |gates| == 0 {
      gates := DefaultQualityGates;
    }
    var files := LikelyFiles(w);
    var evidence := EvidenceList(w);
    var data := PromptData(name, w, state, ctx, constraints, files, evidence, gates, acceptance,
      state.health.status, state.health.issues);
    assert data == PromptDataFor(name, w, state, ctx);
    text := RenderPrompt(data, profiles);
  }

  // ---------------------------------------------------------------------
  // Properties of the rendered prompt
  // ---------------------------------------------------------------------

  /** An empty profile name renders exactly as "cheap". */
  lemma EmptyProfileIsCheap(d: Disk)
    ensures PromptFor(d, "") == PromptFor(d, DefaultProfile)
  {
  }

  /** An unknown profile is reported before the state is read, whatever the state. */
  lemma UnknownProfileFirst(d: Disk, name: string)
    requires name != "" && LoadPromptProfiles(d).Ok? && name !in LoadPromptProfiles(d).value.profiles
    ensures PromptFor(d, name) == Err(ProfileNotFound(name))
  {
  }

  /** With a known profile and no active work item the build stops with "no active work item". */
  lemma NoActiveWorkItemFails(d: Disk, name: string)
    requires LoadPromptProfiles(d).Ok?
    requires (if name == "" then DefaultProfile else name) in LoadPromptProfiles(d).value.profiles
    requires LoadState(d).Ok? && LoadState(d).value.activeWorkItem == ""
    ensures PromptFor(d, name) == Err(NoActiveWorkItem)
  {
  }

  /** Regrouping the pieces of the rendered prompt around one block. */
  lemma Regroup(h: string, p: string, a: string, s: string, i: string, n: string)
    ensures h + (p + a + s + i) + n == (h + p) + a + (s + i + n)
    ensures h + (p + a + s + i) + n == (h + p + a) + s + (i + n)
    ensures h + (p + a + s + i) + n == (h + p + a + s) + i + n
    ensures h + (p + a + s + i) + n == h + p + (a + s + i + n)
  {
  }

  /** Regrouping the pieces of the rendered prompt around an empty block. */
  lemma RegroupEmpty(h: string, p: string, a: string, s: string, i: string, n: string)
    ensures h + (p + "" + s + i) + n == (h + p) + (s + i + n)
    ensures h + (p + a + "" + i) + n == (h + p + a) + (i + n)
    ensures h + (p + a + s + "") + n == (h + p + a + s) + n
  {
  }

  /** A prefix survives appending. */
  lemma PrefixKept(a: string, b: string, c: string)
    requires HasPrefix(a, c)
    ensures HasPrefix(a + b, c)
  {
    assert (a + b)[..|c|] == a[..|c|];
  }

  /** The fixed part of the prompt opens with the task line. */
  lemma HeadStartsWithTask(data: PromptData)
    ensures HasPrefix(Head(data), TaskLine(data.workItem))
  {
  }

  /** The prompt opens with the task line and ends with a newline. */
  lemma RenderFrame(data: PromptData, profiles: map<string, PromptProfile>)
    ensures var r := Render(data, profiles);
      HasPrefix(r, "Task: " + data.workItem.title + " (" + data.workItem.id + ")\n") && r[|r| - 1] == '\n'
  {
    var h := Head(data);
    var s := Sections(data, ProfileOf(profiles, data.profile));
    HeadStartsWithTask(data);
    PrefixKept(h, s, TaskLine(data.workItem));
    PrefixKept(h + s, "\n", TaskLine(data.workItem));
  }

  /**
   * The profile's `IncludeArchitecture` switches exactly the Architecture
   * block: the prompt with it on is the prompt with it off with the block
   * inserted.
   */
  lemma ArchitectureToggle(data: PromptData, profiles: map<string, PromptProfile>) returns (before: string, after: string)
    ensures var p := ProfileOf(profiles, data.profile);
      && Render(data, profiles[data.profile := p.(includeArchitecture := true)])
        == before + ("\nArchitecture:\n- " + ArchSummary(data.context.architecture)) + after
      && Render(data, profiles[data.profile := p.(includeArchitecture := false)]) == before + after
  {
    var p := ProfileOf(profiles, data.profile);
    before := Head(data) + ProjectSection(data.context.project.summary);
    after := StandardsSection(p.includeStandards, data.context.standards) + IssuesSection(data.healthIssues) + "\n";
    RenderWithArch(data, profiles, true, before, after);
    RenderWithArch(data, profiles, false, before, after);
    assert before + "" == before;
  }

  /** The prompt with the Architecture switch set: the block, or nothing, between the same two parts. */
  lemma RenderWithArch(data: PromptData, profiles: map<string, PromptProfile>, on: bool, before: string, after: string)
    requires before == Head(data) + ProjectSection(data.context.project.summary)
    requires after == StandardsSection(ProfileOf(profiles, data.profile).includeStandards, data.context.standards)
      + IssuesSection(data.healthIssues) + "\n"
    ensures var p := ProfileOf(profiles, data.profile);
      Render(data, profiles[data.profile := p.(includeArchitecture := on)])
        == before + ArchSection(on, data.context.architecture) + after
  {
    var p := ProfileOf(profiles, data.profile);
    var q := p.(includeArchitecture := on);
    assert ProfileOf(profiles[data.profile := q], data.profile) == q;
    var arch := ArchSection(on, data.context.architecture);
    Regroup(Head(data), ProjectSection(data.context.project.summary), arch,
      StandardsSection(p.includeStandards, data.context.standards), IssuesSection(data.healthIssues), "\n");
  }

  /** Likewise `IncludeStandards` switches exactly the Standards block. */
  lemma StandardsToggle(data: PromptData, profiles: map<string, PromptProfile>) returns (before: string, after: string)
    ensures var p := ProfileOf(profiles, data.profile);
      && Render(data, profiles[data.profile := p.(includeStandards := true)])
        == before + ("\nStandards:\n" + Scoped(data.context.standards)) + after
      && Render(data, profiles[data.profile := p.(includeStandards := false)]) == before + after
  {
    var p := ProfileOf(profiles, data.profile);
    before := Head(data) + ProjectSection(data.context.project.summary)
      + ArchSection(p.includeArchitecture, data.context.architecture);
    after := IssuesSection(data.healthIssues) + "\n";
    RenderWithStandards(data, profiles, true, before, after);
    RenderWithStandards(data, profiles, false, before, after);
    assert before + "" == before;
  }

  /** The prompt with the Standards switch set: the block, or nothing, between the same two parts. */
  lemma RenderWithStandards(data: PromptData, profiles: map<string, PromptProfile>, on: bool, before: string, after: string)
    requires before == Head(data) + ProjectSection(data.context.project.summary)
      + ArchSection(ProfileOf(profiles, data.profile).includeArchitecture, data.context.architecture)
    requires after == IssuesSection(data.healthIssues) + "\n"
    ensures var p := ProfileOf(profiles, data.profile);
      Render(data, profiles[data.profile := p.(includeStandards := on)])
        == before + StandardsSection(on, data.context.standards) + after
  {
    var p := ProfileOf(profiles, data.profile);
    var q := p.(includeStandards := on);
    assert ProfileOf(profiles[data.profile := q], data.profile) == q;
    var std := StandardsSection(on, data.context.standards);
    Regroup(Head(data), ProjectSection(data.context.project.summary),
      ArchSection(p.includeArchitecture, data.context.architecture), std, IssuesSection(data.healthIssues), "\n");
  }

  /**
   * The Health Issues block is there exactly when the list is non-empty:
   * the rest of the prompt does not depend on the issues.
   */
  lemma IssuesBlock(data: PromptData, profiles: map<string, PromptProfile>) returns (before: string)
    ensures forall issues: seq<string> :: |issues| > 0 ==>
      Render(data.(healthIssues := issues), profiles) == before + ("\n\nHealth Issues:\n" + Bullets(issues)) + "\n"
    ensures Render(data.(healthIssues := []), profiles) == before + "\n"
  {
    var p := ProfileOf(profiles, data.profile);
    var h := Head(data);
    var proj := ProjectSection(data.context.project.summary);
    var arch := ArchSection(p.includeArchitecture, data.context.architecture);
    var std := StandardsSection(p.includeStandards, data.context.standards);
    before := h + proj + arch + std;
    forall issues: seq<string>
      ensures Render(data.(healthIssues := issues), profiles) == before + IssuesSection(issues) + "\n"
    {
      assert Head(data.(healthIssues := issues)) == h;
      Regroup(h, proj, arch, std, IssuesSection(issues), "\n");
    }
    RegroupEmpty(h, proj, arch, std, "", "\n");
  }

  /** `data` with the project summary replaced. */
  function WithProjectSummary(data: PromptData, summary: string): PromptData
  {
    data.(context := data.context.(project := data.context.project.(summary := summary)))
  }

  /**
   * The project summary switches exactly the Project Context block: any
   * non-empty summary, blank or not, inserts the block between the same two
   * parts, and the empty summary leaves them joined.
   */
  lemma ProjectContextToggle(data: PromptData, profiles: map<string, PromptProfile>) returns (before: string, after: string)
    ensures forall summary: string {:trigger WithProjectSummary(data, summary)} :: summary != "" ==>
      Render(WithProjectSummary(data, summary), profiles) == before + ("Project Context:\n- " + summary + "\n") + after
    ensures Render(WithProjectSummary(data, ""), profiles) == before + after
  {
    var p := ProfileOf(profiles, data.profile);
    before := Head(data);
    after := ArchSection(p.includeArchitecture, data.context.architecture)
      + StandardsSection(p.includeStandards, data.context.standards) + IssuesSection(data.healthIssues) + "\n";
    forall summary: string
      ensures Render(WithProjectSummary(data, summary), profiles) == before + ProjectSection(summary) + after
    {
      RenderWithSummary(data, profiles, summary, before, after);
    }
    assert before + "" == before;
  }

  /** The prompt with a given project summary: its block, or nothing, between the same two parts. */
  lemma RenderWithSummary(data: PromptData, profiles: map<string, PromptProfile>, summary: string, before: string, after: string)
    requires before == Head(data)
    requires after == ArchSection(ProfileOf(profiles, data.profile).includeArchitecture, data.context.architecture)
      + StandardsSection(ProfileOf(profiles, data.profile).includeStandards, data.context.standards)
      + IssuesSection(data.healthIssues) + "\n"
    ensures Render(WithProjectSummary(data, summary), profiles) == before + ProjectSection(summary) + after
  {
    var p := ProfileOf(profiles, data.profile);
    var data' := WithProjectSummary(data, summary);
    assert Head(data') == before;
    assert ProfileOf(profiles, data'.profile) == p;
    Regroup(before, ProjectSection(summary), ArchSection(p.includeArchitecture, data.context.architecture),
      StandardsSection(p.includeStandards, data.context.standards), IssuesSection(data.healthIssues), "\n");
  }

  /** The Project Context block follows template truthiness: any non-empty summary, even a blank one. */
  lemma ProjectContextShown(data: PromptData, profiles: map<string, PromptProfile>)
    requires data.context.project.summary != ""
    ensures Contains(Render(data, profiles), "Project Context:\n- " + data.context.project.summary + "\n")
  {
    var p := ProfileOf(profiles, data.profile);
    var h := Head(data);
    var block := "Project Context:\n- " + data.context.project.summary + "\n";
    var arch := ArchSection(p.includeArchitecture, data.context.architecture);
    var std := StandardsSection(p.includeStandards, data.context.standards);
    var iss := IssuesSection(data.healthIssues);
    Regroup(h, block, arch, std, iss, "\n");
    OccursInMiddle(h, block, arch + std + iss + "\n");
  }
}
