/**
 * The Foundation and standard-library string operations the application code
 * is built from: trimming, splitting on a set of separator characters (with and
 * without the empty pieces), joining, decimal rendering of numbers and integer
 * parsing. Strings are sequences of Unicode scalar values.
 */
module Strings {
  import opened Wrappers

  /** Members of Foundation's `whitespacesAndNewlines` set (Unicode White_Space). */
  predicate IsWhitespace(c: char) {
    ('\t' <= c <= '\r') || c == ' ' || c == '\U{85}' || c == '\U{A0}' || c == '\U{1680}'
    || ('\U{2000}' <= c <= '\U{200A}') || c == '\U{2028}' || c == '\U{2029}'
    || c == '\U{202F}' || c == '\U{205F}' || c == '\U{3000}'
  }

  /** Swift's `Character.isNewline`. */
  predicate IsNewline(c: char) {
    ('\n' <= c <= '\r') || c == '\U{85}' || c == '\U{2028}' || c == '\U{2029}'
  }

  predicate IsNonEmpty(w: string) {
    w != []
  }

  /** No character of `w` is a separator. */
  predicate NoneSatisfy(w: string, isSep: char -> bool) {
    forall c :: c in w ==> !isSep(c)
  }

  // ---------------------------------------------------------------------------
  // Filtering and flattening

  /** The elements of `s` that satisfy `keep`, in order (Swift's `filter`). */
  function Filter<T(!new)>(s: seq<T>, keep: T -> bool): (r: seq<T>)
    ensures |r| <= |s|
    ensures forall x :: x in r <==> x in s && keep(x)
  {
    if s == [] then []
    else (if keep(s[0]) then [s[0]] else []) + Filter(s[1..], keep)
  }

  lemma {:induction false} FilterConcat<T(!new)>(a: seq<T>, b: seq<T>, keep: T -> bool)
    ensures Filter(a + b, keep) == Filter(a, keep) + Filter(b, keep)
  {
    if a == [] {
      assert a + b == b;
    } else {
      assert (a + b)[1..] == a[1..] + b;
      FilterConcat(a[1..], b, keep);
    }
  }

  /** Filtering keeps a sequence whose every element passes unchanged. */
  lemma {:induction false} FilterAllKept<T(!new)>(s: seq<T>, keep: T -> bool)
    requires forall x :: x in s ==> keep(x)
    ensures Filter(s, keep) == s
  {
    if s != [] {
      FilterAllKept(s[1..], keep);
    }
  }

  /** The pieces laid end to end. */
  function Flatten(ps: seq<string>): string {
    if ps == [] then [] else ps[0] + Flatten(ps[1..])
  }

  // ---------------------------------------------------------------------------
  // Trimming

  /** `s` without its leading characters that satisfy `drop`. */
  function TrimLeading(s: string, drop: char -> bool): (r: string)
    ensures |r| <= |s| && r == s[|s| - |r|..]
    ensures r != [] ==> !drop(r[0])
    ensures forall i :: 0 <= i < |s| - |r| ==> drop(s[i])
  {
    if s != [] && drop(s[0]) then
      var r := TrimLeading(s[1..], drop);
      assert s[1..][|s| - 1 - |r|..] == s[|s| - |r|..];
      assert forall i :: 1 <= i < |s| ==> s[i] == s[1..][i - 1];
      r
    else s
  }

  /** `s` without its trailing characters that satisfy `drop`. */
  function TrimTrailing(s: string, drop: char -> bool): (r: string)
    ensures |r| <= |s| && r == s[..|r|]
    ensures r != [] ==> !drop(r[|r| - 1])
    ensures forall i :: |r| <= i < |s| ==> drop(s[i])
  {
    if s != [] && drop(s[|s| - 1]) then
      var r := TrimTrailing(s[..|s| - 1], drop);
      assert s[..|s| - 1][..|r|] == s[..|r|];
      assert forall i :: 0 <= i < |s| - 1 ==> s[i] == s[..|s| - 1][i];
      r
    else s
  }

  /** Nothing to trim at the front when the first character stays. */
  lemma TrimLeadingKeeps(s: string, drop: char -> bool)
    requires s != [] && !drop(s[0])
    ensures TrimLeading(s, drop) == s
  {
  }

  /** A dropped first character is cut, and trimming goes on with the rest. */
  lemma TrimLeadingStep(s: string, drop: char -> bool)
    requires s != [] && drop(s[0])
    ensures TrimLeading(s, drop) == TrimLeading(s[1..], drop)
  {
  }

  /** Nothing to trim at the back when the last character stays. */
  lemma TrimTrailingKeeps(s: string, drop: char -> bool)
    requires s != [] && !drop(s[|s| - 1])
    ensures TrimTrailing(s, drop) == s
  {
  }

  /** `trimmingCharacters(in: .whitespacesAndNewlines)`. */
  function Trim(s: string): string {
    TrimTrailing(TrimLeading(s, IsWhitespace), IsWhitespace)
  }

  // ---------------------------------------------------------------------------
  // Splitting and joining

  /**
   * The pieces of `s` between separator characters, empty pieces included
   * (Foundation's `components(separatedBy:)` with a character set).
   */
  function Components(s: string, isSep: char -> bool): (r: seq<string>)
    ensures |r| >= 1
    ensures forall w :: w in r ==> NoneSatisfy(w, isSep)
    ensures forall w, c :: w in r && c in w ==> c in s
  {
    if s == [] then [[]]
    else
      var rest := Components(s[1..], isSep);
      if isSep(s[0]) then [[]] + rest
      else
        assert rest[0] in rest;
        assert forall w :: w in rest[1..] ==> w in rest;
        [[s[0]] + rest[0]] + rest[1..]
  }

  /**
   * The maximal runs of non-separator characters of `s`: Swift's `split` with
   * its default of omitting empty subsequences.
   */
  function Split(s: string, isSep: char -> bool): (r: seq<string>)
    ensures forall w :: w in r ==> w != [] && NoneSatisfy(w, isSep)
  {
    Filter(Components(s, isSep), IsNonEmpty)
  }

  /** The pieces with `sep` between neighbours (Swift's `joined(separator:)`). */
  function Join(ps: seq<string>, sep: char): string {
    if ps == [] then []
    else if |ps| == 1 then ps[0]
    else ps[0] + [sep] + Join(ps[1..], sep)
  }

  lemma {:induction false} ComponentsOfPiece(w: string, isSep: char -> bool)
    requires NoneSatisfy(w, isSep)
    ensures Components(w, isSep) == [w]
  {
    if w != [] {
      ComponentsOfPiece(w[1..], isSep);
      assert [w[0]] + w[1..] == w;
    }
  }

  /** A separator after a separator-free piece ends exactly that piece. */
  lemma {:induction false} ComponentsAfterPiece(w: string, c: char, rest: string, isSep: char -> bool)
    requires NoneSatisfy(w, isSep) && isSep(c)
    ensures Components(w + [c] + rest, isSep) == [w] + Components(rest, isSep)
  {
    var s := w + [c] + rest;
    if w == [] {
      assert s[1..] == rest;
    } else {
      assert s[1..] == w[1..] + [c] + rest;
      ComponentsAfterPiece(w[1..], c, rest, isSep);
      assert [w[0]] + w[1..] == w;
    }
  }

  lemma {:induction false} ComponentsOfJoin(ps: seq<string>, c: char, isSep: char -> bool)
    requires |ps| >= 1 && isSep(c)
    requires forall w :: w in ps ==> NoneSatisfy(w, isSep)
    ensures Components(Join(ps, c), isSep) == ps
  {
    if |ps| == 1 {
      ComponentsOfPiece(ps[0], isSep);
    } else {
      ComponentsOfJoin(ps[1..], c, isSep);
      ComponentsAfterPiece(ps[0], c, Join(ps[1..], c), isSep);
      assert [ps[0]] + ps[1..] == ps;
    }
  }

  /**
   * Round trip: splitting the joined text gives back pieces that were all
   * non-empty and free of separators.
   */
  lemma SplitJoin(ps: seq<string>, c: char, isSep: char -> bool)
    requires isSep(c)
    requires forall w :: w in ps ==> w != [] && NoneSatisfy(w, isSep)
    ensures Split(Join(ps, c), isSep) == ps
  {
    if ps == [] {
      assert Components([], isSep) == [[]];
    } else {
      ComponentsOfJoin(ps, c, isSep);
      FilterAllKept(ps, IsNonEmpty);
    }
  }

  /** Idempotence of normalising through a split and a join. */
  lemma SplitJoinSplit(s: string, c: char, isSep: char -> bool)
    requires isSep(c)
    ensures Split(Join(Split(s, isSep), c), isSep) == Split(s, isSep)
  {
    SplitJoin(Split(s, isSep), c, isSep);
  }

  /** Laid end to end, the components are the input without its separators. */
  lemma {:induction false} FlattenComponents(s: string, isSep: char -> bool, keep: char -> bool)
    requires forall c :: keep(c) <==> !isSep(c)
    ensures Flatten(Components(s, isSep)) == Filter(s, keep)
  {
    if s != [] {
      FlattenComponents(s[1..], isSep, keep);
      FlattenComponentsStep(s, isSep, keep);
    }
  }

  /** One character more: a separator adds an empty piece, any other character grows the first piece. */
  lemma FlattenComponentsStep(s: string, isSep: char -> bool, keep: char -> bool)
    requires s != [] && (keep(s[0]) <==> !isSep(s[0]))
    requires Flatten(Components(s[1..], isSep)) == Filter(s[1..], keep)
    ensures Flatten(Components(s, isSep)) == Filter(s, keep)
  {
    if isSep(s[0]) {
      FlattenAtSeparator(s, isSep);
    } else {
      FlattenAtPiece(s, isSep);
    }
  }

  lemma FlattenAtSeparator(s: string, isSep: char -> bool)
    requires s != [] && isSep(s[0])
    ensures Flatten(Components(s, isSep)) == Flatten(Components(s[1..], isSep))
  {
    FlattenCons([], Components(s[1..], isSep));
  }

  lemma FlattenAtPiece(s: string, isSep: char -> bool)
    requires s != [] && !isSep(s[0])
    ensures Flatten(Components(s, isSep)) == [s[0]] + Flatten(Components(s[1..], isSep))
  {
    var rest := Components(s[1..], isSep);
    assert Components(s, isSep) == [[s[0]] + rest[0]] + rest[1..];
    assert rest == [rest[0]] + rest[1..];
    FlattenGrowHead(s[0], rest[0], rest[1..]);
  }

  /** Growing the first piece by one character grows the flattening by that character. */
  lemma FlattenGrowHead(c: char, head: string, tail: seq<string>)
    ensures Flatten([[c] + head] + tail) == [c] + Flatten([head] + tail)
  {
    FlattenCons([c] + head, tail);
    FlattenCons(head, tail);
    assert ([c] + head) + Flatten(tail) == [c] + (head + Flatten(tail));
  }

  lemma FlattenCons(w: string, ps: seq<string>)
    ensures Flatten([w] + ps) == w + Flatten(ps)
  {
    assert ([w] + ps)[1..] == ps;
  }

  lemma {:induction false} FlattenNonEmpty(ps: seq<string>)
    ensures Flatten(Filter(ps, IsNonEmpty)) == Flatten(ps)
  {
    if ps != [] {
      FlattenNonEmpty(ps[1..]);
      var head: seq<string> := if IsNonEmpty(ps[0]) then [ps[0]] else [];
      FlattenConcat(head, Filter(ps[1..], IsNonEmpty));
      assert Flatten(head) == ps[0] by {
        if head != [] {
          assert Flatten(head) == ps[0] + Flatten([]);
        }
      }
    }
  }

  lemma {:induction false} FlattenConcat(a: seq<string>, b: seq<string>)
    ensures Flatten(a + b) == Flatten(a) + Flatten(b)
  {
    if a == [] {
      assert a + b == b;
    } else {
      assert (a + b)[1..] == a[1..] + b;
      FlattenConcat(a[1..], b);
    }
  }

  /** Splitting leaves nothing exactly when the input is all separators. */
  lemma SplitEmptyIff(s: string, isSep: char -> bool, keep: char -> bool)
    requires forall c :: keep(c) <==> !isSep(c)
    ensures Split(s, isSep) == [] <==> forall c :: c in s ==> isSep(c)
  {
    FlattenComponents(s, isSep, keep);
    FlattenNonEmpty(Components(s, isSep));
    FlattenEmptyIff(Split(s, isSep));
    var f := Filter(s, keep);
    if f != [] {
      assert f[0] in f;
    }
  }

  lemma {:induction false} FlattenEmptyIff(ps: seq<string>)
    requires forall w :: w in ps ==> w != []
    ensures Flatten(ps) == [] <==> ps == []
  {
    if ps != [] {
      assert ps[0] in ps;
    }
  }

  /** Removing a character class from a join removes the separator too when the class contains it. */
  lemma {:induction false} FilterJoin(ps: seq<string>, c: char, keep: char -> bool)
    requires !keep(c)
    ensures Filter(Join(ps, c), keep) == Filter(Flatten(ps), keep)
  {
    if |ps| == 1 {
      assert Flatten(ps) == ps[0] + Flatten([]);
      assert ps[0] + [] == ps[0];
    } else if |ps| > 1 {
      FilterJoin(ps[1..], c, keep);
      FilterAroundDropped(ps[0], c, Join(ps[1..], c), keep);
      FilterConcat(ps[0], Flatten(ps[1..]), keep);
    }
  }

  /** A dropped character between two strings leaves just the two filtered. */
  lemma FilterAroundDropped(w: string, c: char, tail: string, keep: char -> bool)
    requires !keep(c)
    ensures Filter(w + [c] + tail, keep) == Filter(w, keep) + Filter(tail, keep)
  {
    var wc := w + [c];
    FilterConcat(wc, tail, keep);
    FilterConcat(w, [c], keep);
    FilterDropsOne(c, keep);
    assert Filter(wc, keep) == Filter(w, keep);
  }

  lemma FilterDropsOne(c: char, keep: char -> bool)
    requires !keep(c)
    ensures Filter([c], keep) == []
  {
    assert [c][1..] == [];
  }

  /** Joining non-empty separator-free pieces with a non-separator gives a non-empty separator-free string. */
  lemma {:induction false} JoinNonEmptyPieces(ps: seq<string>, c: char, isSep: char -> bool)
    requires ps != [] && !isSep(c)
    requires forall w :: w in ps ==> w != [] && NoneSatisfy(w, isSep)
    ensures Join(ps, c) != [] && NoneSatisfy(Join(ps, c), isSep)
  {
    assert ps[0] in ps;
    if |ps| > 1 {
      assert forall w :: w in ps[1..] ==> w in ps;
      JoinNonEmptyPieces(ps[1..], c, isSep);
    }
  }

  /** No two neighbouring characters of `s` are both `c`. */
  predicate NoDoubled(s: string, c: char) {
    forall i :: 0 <= i < |s| - 1 ==> !(s[i] == c && s[i + 1] == c)
  }

  /**
   * Joining non-empty pieces that do not contain the joiner never puts two
   * joiners side by side, nor one at either end.
   */
  lemma {:induction false} JoinSingleJoiners(ps: seq<string>, c: char)
    requires ps != []
    requires forall w :: w in ps ==> w != [] && c !in w
    ensures var r := Join(ps, c); r != [] && r[0] != c && r[|r| - 1] != c && NoDoubled(r, c)
  {
    var w := ps[0];
    assert w in ps;
    assert forall v :: v in ps[1..] ==> v in ps;
    if |ps| > 1 {
      var tail := Join(ps[1..], c);
      JoinSingleJoiners(ps[1..], c);
      var r := w + [c] + tail;
      assert r == Join(ps, c);
      forall i | 0 <= i < |r| - 1
        ensures !(r[i] == c && r[i + 1] == c)
      {
        if i < |w| - 1 {
          assert r[i] == w[i];
        } else if i == |w| - 1 {
          assert r[i] == w[i];
        } else if i == |w| {
          assert r[i + 1] == tail[0];
        } else {
          assert r[i] == tail[i - |w| - 1] && r[i + 1] == tail[i - |w|];
        }
      }
      assert r[0] == w[0];
      assert r[|r| - 1] == tail[|tail| - 1];
    } else {
      var r := Join(ps, c);
      assert r == w;
      assert w[0] in w && w[|w| - 1] in w;
      forall i | 0 <= i < |r| - 1
        ensures !(r[i] == c && r[i + 1] == c)
      {
        assert r[i] in w;
      }
    }
  }

  // ---------------------------------------------------------------------------
  // Decimal numbers

  predicate IsDigit(c: char) {
    '0' <= c <= '9'
  }

  predicate AllDigits(s: string) {
    forall c :: c in s ==> IsDigit(c)
  }

  function DigitChar(d: nat): (c: char)
    requires d < 10
    ensures IsDigit(c)
  {
    ('0' as int + d) as char
  }

  /** Decimal rendering without leading zeros (Swift's string interpolation of an integer). */
  function Dec(n: nat): (r: string)
    ensures r != [] && AllDigits(r)
  {
    if n < 10 then [DigitChar(n)] else Dec(n / 10) + [DigitChar(n % 10)]
  }

  /** The number a string of decimal digits denotes. */
  function DecValue(d: string): nat
    requires AllDigits(d)
  {
    if d == [] then 0
    else
      assert d[|d| - 1] in d;
      DecValue(d[..|d| - 1]) * 10 + (d[|d| - 1] as int - '0' as int)
  }

  /** Round trip: the digits `Dec` writes denote the number rendered. */
  lemma {:induction false} DecValueOfDec(n: nat)
    ensures DecValue(Dec(n)) == n
  {
    if n >= 10 {
      DecValueOfDec(n / 10);
      var d := Dec(n);
      assert d[..|d| - 1] == Dec(n / 10);
    }
  }

  /**
   * Swift's `init?(_ text:)` of an integer type whose values are `lo`..`hi`:
   * an optional `+` or `-`, then one or more ASCII digits; nil when the text is
   * malformed or the value is out of range.
   */
  function ParseInteger(s: string, lo: int, hi: int): (r: Option<int>)
    ensures r.Some? ==> lo <= r.value <= hi && s != []
    ensures r.Some? && s[0] != '-' ==> r.value >= 0
  {
    if s == [] then None
    else
      var negative := s[0] == '-';
      var digits := if s[0] == '+' || negative then s[1..] else s;
      if digits == [] || !AllDigits(digits) then None
      else
        var v: int := if negative then 0 - DecValue(digits) as int else DecValue(digits);
        if lo <= v <= hi then Some(v) else None
  }

  /** Round trip: a rendered number in range parses back to itself. */
  lemma ParseDec(n: nat, lo: int, hi: int)
    requires lo <= n <= hi
    ensures ParseInteger(Dec(n), lo, hi) == Some(n)
  {
    DecValueOfDec(n);
    var d := Dec(n);
    assert IsDigit(d[0]);
  }
}
