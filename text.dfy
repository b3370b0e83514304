/**
 * The pieces of Go's `strings`, `strconv`/`fmt` and `sort` packages that the
 * agent code relies on, over `string` = `seq<char>`.
 */
module Text {

  // ---------------------------------------------------------------------
  // Trimming
  // ---------------------------------------------------------------------

  /** The characters `unicode.IsSpace` accepts, which `strings.TrimSpace` removes. */
  const Spaces: set<char> := {
    '\t', '\n', '\U{000B}', '\U{000C}', '\r', ' ', '\U{0085}', '\U{00A0}', '\U{1680}',
    '\U{2000}', '\U{2001}', '\U{2002}', '\U{2003}', '\U{2004}', '\U{2005}', '\U{2006}',
    '\U{2007}', '\U{2008}', '\U{2009}', '\U{200A}', '\U{2028}', '\U{2029}', '\U{202F}',
    '\U{205F}', '\U{3000}'
  }

  /** `strings.TrimLeft(s, cutset)`: drop the longest prefix made of `cut` characters. */
  function TrimLeft(s: string, cut: set<char>): (r: string)
    ensures |r| <= |s| && r == s[|s| - |r|..]
    ensures r == [] || r[0] !in cut
    ensures forall i :: 0 <= i < |s| - |r| ==> s[i] in cut
  {
    if |s| > 0 && s[0] in cut then TrimLeft(s[1..], cut) else s
  }

  /** `strings.TrimRight(s, cutset)`: drop the longest suffix made of `cut` characters. */
  function TrimRight(s: string, cut: set<char>): (r: string)
    ensures |r| <= |s| && r == s[..|r|]
    ensures r == [] || r[|r| - 1] !in cut
    ensures forall i :: |r| <= i < |s| ==> s[i] in cut
  {
    if |s| > 0 && s[|s| - 1] in cut then TrimRight(s[..|s| - 1], cut) else s
  }

  /** `strings.Trim(s, cutset)`. */
  function Trim(s: string, cut: set<char>): string
  {
    TrimRight(TrimLeft(s, cut), cut)
  }

  /** `strings.TrimSpace(s)`. */
  function TrimSpace(s: string): string
  {
    Trim(s, Spaces)
  }

  /** Every character is white space (so `strings.TrimSpace(s) == ""`). */
  predicate IsBlank(s: string)
  {
    forall i :: 0 <= i < |s| ==> s[i] in Spaces
  }

  lemma TrimSpaceEmptyIffBlank(s: string)
    ensures TrimSpace(s) == "" <==> IsBlank(s)
  {
    var l := TrimLeft(s, Spaces);
    if TrimSpace(s) == "" {
      forall i | 0 <= i < |s| ensures s[i] in Spaces {
        if i >= |s| - |l| {
          assert s[i] == l[i - (|s| - |l|)];
        }
      }
    }
  }

  /** A trimmed string is neither blank-edged nor, when non-empty, blank. */
  lemma TrimSpaceEdges(s: string)
    ensures var t := TrimSpace(s); t == [] || (t[0] !in Spaces && t[|t| - 1] !in Spaces)
  {
    var l := TrimLeft(s, Spaces);
    var t := TrimRight(l, Spaces);
    if t != [] {
      assert t[0] == l[0];
    }
  }

  /** Trimming a string that already has no blank edges changes nothing. */
  lemma TrimSpaceIdempotent(s: string)
    ensures TrimSpace(TrimSpace(s)) == TrimSpace(s)
  {
    var t := TrimSpace(s);
    TrimSpaceEdges(s);
    assert TrimLeft(t, Spaces) == t;
    assert TrimRight(t, Spaces) == t;
  }

  /** A leading newline is trimmed away with the other white space. */
  lemma TrimSpaceLeadingNewline(s: string)
    ensures TrimSpace("\n" + s) == TrimSpace(s)
  {
    assert ("\n" + s)[1..] == s;
  }

  // ---------------------------------------------------------------------
  // Prefixes, suffixes, joining
  // ---------------------------------------------------------------------

  /** `strings.HasPrefix(s, p)`. */
  predicate HasPrefix(s: string, p: string)
  {
    |p| <= |s| && s[..|p|] == p
  }

  /** `strings.HasSuffix(s, p)`. */
  predicate HasSuffix(s: string, p: string)
  {
    |p| <= |s| && s[|s| - |p|..] == p
  }

  /** `strings.TrimSuffix(s, p)`. */
  function TrimSuffix(s: string, p: string): (r: string)
    ensures HasSuffix(s, p) ==> r + p == s
    ensures !HasSuffix(s, p) ==> r == s
  {
    if HasSuffix(s, p) then s[..|s| - |p|] else s
  }

  /** `strings.Join(items, sep)`. */
  function Join(items: seq<string>, sep: string): string
  {
    if |items| == 0 then ""
    else if |items| == 1 then items[0]
    else items[0] + sep + Join(items[1..], sep)
  }

  // ---------------------------------------------------------------------
  // Searching and splitting
  // ---------------------------------------------------------------------

  /** `sub` occurs in `s` starting at position `j`. */
  predicate OccursAt(s: string, sub: string, j: int)
  {
    0 <= j && j + |sub| <= |s| && s[j..j + |sub|] == sub
  }

  /** First occurrence of `sub` in `s` at or after `k`, or -1. */
  function IndexFrom(s: string, sub: string, k: nat): (r: int)
    requires k <= |s|
    ensures r == -1 || (k <= r && OccursAt(s, sub, r))
    ensures forall j :: k <= j && (r == -1 || j < r) ==> !OccursAt(s, sub, j)
    decreases |s| - k
  {
    if k + |sub| > |s| then -1
    else if s[k..k + |sub|] == sub then k
    else if k == |s| then -1
    else IndexFrom(s, sub, k + 1)
  }

  /** `strings.Index(s, sub)`: the first occurrence, or -1 when there is none. */
  function Index(s: string, sub: string): (r: int)
    ensures r == -1 || OccursAt(s, sub, r)
    ensures forall j :: 0 <= j && (r == -1 || j < r) ==> !OccursAt(s, sub, j)
  {
    IndexFrom(s, sub, 0)
  }

  lemma OccursInMiddle(a: string, x: string, b: string)
    ensures OccursAt(a + x + b, x, |a|)
    ensures Contains(a + x + b, x)
  {
    var s := a + x + b;
    assert s[|a|..|a| + |x|] == x;
    assert OccursAt(s, x, |a|);
    ContainsIffOccurs(s, x);
  }

  lemma ContainsInTail(a: string, b: string, x: string, c: string)
    ensures Contains(a + (b + x + c), x)
  {
    OccursInMiddle(a + b, x, c);
    assert a + b + x + c == a + (b + x + c);
  }

  /** `strings.Contains(s, sub)`. */
  predicate Contains(s: string, sub: string)
  {
    Index(s, sub) >= 0
  }

  lemma ContainsIffOccurs(s: string, sub: string)
    ensures Contains(s, sub) <==> exists j :: OccursAt(s, sub, j)
  {
  }

  /**
   * `strings.SplitN(s, sep, n)` for a non-empty separator: at most `n` pieces,
   * split at the first `n - 1` non-overlapping occurrences of `sep`.
   */
  function SplitN(s: string, sep: string, n: nat): (parts: seq<string>)
    requires |sep| > 0
    ensures (n == 0) == (|parts| == 0)
    ensures |parts| <= n
    decreases n
  {
    if n == 0 then []
    else if n == 1 then [s]
    else
      var i := Index(s, sep);
      if i < 0 then [s] else [s[..i]] + SplitN(s[i + |sep|..], sep, n - 1)
  }

  // ---------------------------------------------------------------------
  // Case
  // ---------------------------------------------------------------------

  /** ASCII lower-casing of one character. */
  function LowerChar(c: char): (r: char)
    ensures 'A' <= c <= 'Z' ==> 'a' <= r <= 'z'
    ensures !('A' <= c <= 'Z') ==> r == c
  {
    if 'A' <= c <= 'Z' then (c as int + 32) as char else c
  }

  /** `strings.ToLower(s)`, restricted to ASCII letters. */
  function ToLower(s: string): (r: string)
    ensures |r| == |s|
    ensures forall i :: 0 <= i < |s| ==> r[i] == LowerChar(s[i])
  {
    seq(|s|, i requires 0 <= i < |s| => LowerChar(s[i]))
  }

  // ---------------------------------------------------------------------
  // Decimal numbers
  // ---------------------------------------------------------------------

  predicate IsDigit(c: char)
  {
    '0' <= c <= '9'
  }

  predicate AllDigits(s: string)
  {
    forall i :: 0 <= i < |s| ==> IsDigit(s[i])
  }

  function DigitChar(d: nat): (c: char)
    requires d < 10
    ensures IsDigit(c)
  {
    ('0' as int + d) as char
  }

  function DigitValue(c: char): (d: nat)
    requires IsDigit(c)
    ensures d < 10 && DigitChar(d) == c
  {
    c as int - '0' as int
  }

  /** `strconv.Itoa(n)` / `fmt` `%d` for a non-negative number. */
  function Itoa(n: nat): (r: string)
    ensures |r| > 0 && AllDigits(r)
    ensures n > 0 ==> r[0] != '0'
  {
    if n < 10 then [DigitChar(n)] else Itoa(n / 10) + [DigitChar(n % 10)]
  }

  /** The value of a string of decimal digits (`fmt.Sscanf` with `%d`). */
  function ParseDigits(s: string): nat
    requires AllDigits(s)
  {
    if s == [] then 0 else ParseDigits(s[..|s| - 1]) * 10 + DigitValue(s[|s| - 1])
  }

  lemma {:induction false} ParseItoa(n: nat)
    ensures ParseDigits(Itoa(n)) == n
  {
    if n >= 10 {
      var r := Itoa(n);
      assert r[..|r| - 1] == Itoa(n / 10);
      ParseItoa(n / 10);
    }
  }

  /** Distinct numbers print differently. */
  lemma ItoaInjective(a: nat, b: nat)
    requires Itoa(a) == Itoa(b)
    ensures a == b
  {
    ParseItoa(a);
    ParseItoa(b);
  }

  function Zeros(k: nat): (z: string)
    ensures |z| == k && AllDigits(z)
    ensures forall i :: 0 <= i < k ==> z[i] == '0'
  {
    seq(k, _ => '0')
  }

  /** The `%0*d` padding: left-pad a digit string with zeros to `width`. */
  function PadZero(s: string, width: nat): (r: string)
    ensures |r| == if |s| >= width then |s| else width
    ensures HasSuffix(r, s)
    ensures forall i :: 0 <= i < |r| - |s| ==> r[i] == '0'
  {
    if |s| >= width then s else Zeros(width - |s|) + s
  }

  lemma {:induction false} ParseLeadingZeros(k: nat, s: string)
    requires AllDigits(s)
    ensures AllDigits(Zeros(k) + s)
    ensures ParseDigits(Zeros(k) + s) == ParseDigits(s)
  {
    if s == [] {
      assert Zeros(k) + s == Zeros(k);
      ZerosParseToZero(k);
    } else {
      var t := Zeros(k) + s;
      assert t[..|t| - 1] == Zeros(k) + s[..|s| - 1];
      ParseLeadingZeros(k, s[..|s| - 1]);
    }
  }

  lemma {:induction false} ZerosParseToZero(k: nat)
    ensures ParseDigits(Zeros(k)) == 0
  {
    if k > 0 {
      assert Zeros(k)[..k - 1] == Zeros(k - 1);
      ZerosParseToZero(k - 1);
    }
  }

  /** A digit string is its value as `%d` prints it, after some leading zeros. */
  lemma {:induction false} DigitsAreZerosAndItoa(s: string)
    requires AllDigits(s) && |s| > 0
    ensures exists k: nat :: s == Zeros(k) + Itoa(ParseDigits(s))
  {
    var t := s[..|s| - 1];
    var c := s[|s| - 1];
    assert s == t + [c];
    var v := DigitValue(c);
    assert Itoa(v) == [c];
    var n := ParseDigits(s);
    assert n == ParseDigits(t) * 10 + v;
    if |t| == 0 {
      assert s == Zeros(0) + Itoa(n);
    } else {
      assert AllDigits(t) by {
        assert forall i :: 0 <= i < |t| ==> t[i] == s[i];
      }
      DigitsAreZerosAndItoa(t);
      var k: nat :| t == Zeros(k) + Itoa(ParseDigits(t));
      var p := ParseDigits(t);
      if p == 0 {
        ZerosThenZero(k);
        assert n == v;
        assert s == Zeros(k + 1) + [c];
      } else {
        ItoaAppend(p, v);
        assert Itoa(n) == Itoa(p) + [c];
        assert s == (Zeros(k) + Itoa(p)) + [c];
        assert s == Zeros(k) + Itoa(n);
      }
    }
  }

  /** `%d` prints at most three digits exactly for numbers below 1000. */
  lemma ItoaLength(n: nat)
    ensures n < 1000 <==> |Itoa(n)| <= 3
  {
    if n >= 10 {
      ItoaLength(n / 10);
    }
  }

  lemma ZerosThenZero(k: nat)
    ensures Zeros(k) + Itoa(0) == Zeros(k + 1)
  {
    assert Itoa(0) == ['0'];
  }

  /** Printing a number with one more digit appends that digit. */
  lemma ItoaAppend(p: nat, v: nat)
    requires p > 0 && v < 10
    ensures Itoa(p * 10 + v) == Itoa(p) + [DigitChar(v)]
  {
    var n := p * 10 + v;
    assert n / 10 == p && n % 10 == v;
  }

  /** Zero padding does not change the value: `%03d` read back with `%d` is the number. */
  lemma ParsePadded(n: nat, width: nat)
    ensures AllDigits(PadZero(Itoa(n), width))
    ensures ParseDigits(PadZero(Itoa(n), width)) == n
  {
    var s := Itoa(n);
    ParseItoa(n);
    if |s| < width {
      ParseLeadingZeros(width - |s|, s);
    }
  }

  // ---------------------------------------------------------------------
  // Byte-wise string order (Go's `<` on strings, `sort.Strings`)
  // ---------------------------------------------------------------------

  /**
   * Lexicographic order. Go compares UTF-8 bytes; UTF-8 preserves the order of
   * code points, so comparing characters gives the same order.
   */
  predicate LessEq(a: string, b: string)
    decreases |a|
  {
    |a| == 0 || (|b| > 0 && (a[0] < b[0] || (a[0] == b[0] && LessEq(a[1..], b[1..]))))
  }

  lemma {:induction false} LessEqReflexive(a: string)
    ensures LessEq(a, a)
    decreases |a|
  {
    if |a| > 0 {
      LessEqReflexive(a[1..]);
    }
  }

  lemma {:induction false} LessEqTotal(a: string, b: string)
    ensures LessEq(a, b) || LessEq(b, a)
    decreases |a|
  {
    if |a| > 0 && |b| > 0 && a[0] == b[0] {
      LessEqTotal(a[1..], b[1..]);
    }
  }

  lemma {:induction false} LessEqAntisymmetric(a: string, b: string)
    requires LessEq(a, b) && LessEq(b, a)
    ensures a == b
    decreases |a|
  {
    if |a| > 0 {
      LessEqAntisymmetric(a[1..], b[1..]);
      assert a == [a[0]] + a[1..];
      assert b == [b[0]] + b[1..];
    }
  }

  lemma {:induction false} LessEqTransitive(a: string, b: string, c: string)
    requires LessEq(a, b) && LessEq(b, c)
    ensures LessEq(a, c)
    decreases |a|
  {
    if |a| > 0 && a[0] == b[0] && b[0] == c[0] {
      LessEqTransitive(a[1..], b[1..], c[1..]);
    }
  }

  predicate Sorted(s: seq<string>)
  {
    forall i, j {:trigger LessEq(s[i], s[j])} :: 0 <= i < j < |s| ==> LessEq(s[i], s[j])
  }

  /** Insert `x` into a sorted sequence, before the first element not below it. */
  function Insert(x: string, s: seq<string>): (r: seq<string>)
    requires Sorted(s)
    ensures Sorted(r)
    ensures multiset(r) == multiset(s) + multiset{x}
  {
    if s == [] then [x]
    else if LessEq(x, s[0]) then
      assert forall j :: 0 <= j < |s| ==> LessEq(x, s[j]) by {
        forall j | 0 <= j < |s| ensures LessEq(x, s[j]) {
          if j > 0 { LessEqTransitive(x, s[0], s[j]); }
        }
      }
      [x] + s
    else
      LessEqTotal(x, s[0]);
      var rest := Insert(x, s[1..]);
      assert s == [s[0]] + s[1..];
      assert forall y :: y in rest ==> LessEq(s[0], y) by {
        forall y | y in rest ensures LessEq(s[0], y) {
          assert y in multiset(rest);
          if y != x {
            assert y in multiset(s[1..]);
            var j :| 0 <= j < |s[1..]| && s[1..][j] == y;
            assert s[j + 1] == y;
          }
        }
      }
      [s[0]] + rest
  }

  /** `sort.Strings`: an ascending permutation of the input (insertion sort). */
  function SortStrings(s: seq<string>): (r: seq<string>)
    ensures Sorted(r)
    ensures multiset(r) == multiset(s)
  {
    if s == [] then []
    else
      assert s == [s[0]] + s[1..];
      Insert(s[0], SortStrings(s[1..]))
  }

  /** Two sorted arrangements of the same elements are the same sequence. */
  lemma {:induction false} SortedUnique(a: seq<string>, b: seq<string>)
    requires Sorted(a) && Sorted(b) && multiset(a) == multiset(b)
    ensures a == b
    decreases |a|
  {
    assert |a| == |multiset(a)| == |b|;
    if |a| > 0 {
      assert a[0] in multiset(b) && b[0] in multiset(a);
      SortedHeadIsLeast(b, a[0]);
      SortedHeadIsLeast(a, b[0]);
      LessEqAntisymmetric(a[0], b[0]);
      SortedTail(a);
      SortedTail(b);
      SortedUnique(a[1..], b[1..]);
    }
  }

  /** The head of a sorted sequence is below every element. */
  lemma SortedHeadIsLeast(s: seq<string>, x: string)
    requires Sorted(s) && x in multiset(s)
    ensures LessEq(s[0], x)
  {
    var i :| 0 <= i < |s| && s[i] == x;
    if i > 0 {
      assert LessEq(s[0], s[i]);
    } else {
      LessEqReflexive(s[0]);
    }
  }

  /** The tail of a sorted sequence is sorted and holds the other elements. */
  lemma SortedTail(s: seq<string>)
    requires Sorted(s) && |s| > 0
    ensures Sorted(s[1..])
    ensures multiset(s[1..]) == multiset(s) - multiset{s[0]}
  {
    assert s == [s[0]] + s[1..];
    forall i, j | 0 <= i < j < |s[1..]|
      ensures LessEq(s[1..][i], s[1..][j])
    {
      assert LessEq(s[i + 1], s[j + 1]);
    }
  }

  /** Some listing of the members of a set, each once. */
  ghost function ListOf(keys: set<string>): (r: seq<string>)
    ensures multiset(r) == multiset(keys)
  {
    if keys == {} then []
    else
      var k :| k in keys;
      MultisetOfSetAdd(keys - {k}, k);
      assert keys - {k} + {k} == keys;
      ListOf(keys - {k}) + [k]
  }

  /** The members of a set in ascending order. */
  ghost function SortedOf(keys: set<string>): (r: seq<string>)
    ensures Sorted(r)
    ensures multiset(r) == multiset(keys)
    ensures forall x :: x in r <==> x in keys
    ensures |r| == |keys|
  {
    var r := SortStrings(ListOf(keys));
    SortedKeysMembers(r, keys);
    r
  }

  /**
   * The elements of a set in ascending order: the order `sort.Strings` gives
   * to the keys of a Go map after collecting them.
   */
  method SortedKeys(keys: set<string>) returns (r: seq<string>)
    ensures Sorted(r)
    ensures multiset(r) == multiset(keys)
    ensures r == SortedOf(keys)
  {
    var collected: seq<string> := [];
    var rest := keys;
    while rest != {}
      invariant rest <= keys
      invariant multiset(collected) == multiset(keys - rest)
      decreases |rest|
    {
      var k :| k in rest;
      assert keys - (rest - {k}) == (keys - rest) + {k};
      collected := collected + [k];
      rest := rest - {k};
    }
    assert keys - rest == keys;
    r := SortStrings(collected);
    SortedUnique(r, SortedOf(keys));
  }

  /** The elements of a sorted set listing are exactly the set's elements. */
  lemma SortedKeysMembers(r: seq<string>, keys: set<string>)
    requires multiset(r) == multiset(keys)
    ensures forall x :: x in r <==> x in keys
    ensures |r| == |keys|
  {
    forall x ensures x in r <==> x in keys {
      assert x in r <==> x in multiset(r);
    }
    assert |r| == |multiset(r)| == |multiset(keys)| == |keys|;
  }

  /** Adding a new member to a set adds one occurrence to its multiset. */
  lemma MultisetOfSetAdd(s: set<string>, x: string)
    requires x !in s
    ensures multiset(s + {x}) == multiset(s) + multiset{x}
  {
    forall y ensures multiset(s + {x})[y] == (multiset(s) + multiset{x})[y] {
    }
  }

  /** A sequence listing a set holds each member once. */
  lemma SortedKeysDistinct(r: seq<string>, keys: set<string>)
    requires multiset(r) == multiset(keys)
    ensures forall i, j :: 0 <= i < j < |r| ==> r[i] != r[j]
  {
    forall i, j | 0 <= i < j < |r| ensures r[i] != r[j] {
      RepeatedCount(r, i, j);
      assert multiset(keys)[r[i]] <= 1;
    }
  }

  lemma RepeatedCount(r: seq<string>, i: nat, j: nat)
    requires i < j < |r|
    ensures multiset(r)[r[i]] >= if r[i] == r[j] then 2 else 1
  {
    assert r == r[..i] + [r[i]] + r[i + 1..j] + [r[j]] + r[j + 1..];
  }
}
