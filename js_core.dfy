/** The JavaScript semantics the client code relies on, stated once: optional values and
    their truthiness, `||` fallbacks, `trim`, ASCII case mapping, `slice`, `split(' ')`,
    `includes`, `Array.prototype.filter`, a `reduce` sum and the stable
    `Array.prototype.sort`. */
module JsCore {

  datatype Option<+T> = None | Some(value: T)

  /** The settled outcome of an awaited request: the response body, or the rejection that
      the caller's `catch` receives (with the server's `message`, if it sent one). */
  datatype Fetch<+T> = Fetched(data: T) | Failed(message: Option<string>)

  // ---------------------------------------------------------------------------------
  // Truthiness and `||`
  // ---------------------------------------------------------------------------------

  /** An optional string property is truthy iff it is present and not empty. */
  predicate Truthy(s: Option<string>) {
    s.Some? && s.value != ""
  }

  /** `a || b` on optional strings. */
  function Or(a: Option<string>, b: Option<string>): Option<string> {
    if Truthy(a) then a else b
  }

  /** `a || fallback` where the fallback is a string literal. */
  function OrElse(a: Option<string>, fallback: string): string {
    if Truthy(a) then a.value else fallback
  }

  /** `x || 0` on an optional number: absent and 0 both give 0. */
  function NumOrZero(x: Option<real>): real {
    if x.Some? && x.value != 0.0 then x.value else 0.0
  }

  // ---------------------------------------------------------------------------------
  // Whitespace and `trim`
  // ---------------------------------------------------------------------------------

  /** ECMAScript WhiteSpace and LineTerminator code points: the characters `trim` removes
      and the regular expression class `\s` matches. */
  predicate IsSpace(c: char) {
    var n := c as int;
    n == 0x09 || n == 0x0A || n == 0x0B || n == 0x0C || n == 0x0D || n == 0x20
    || n == 0xA0 || n == 0x1680 || (0x2000 <= n <= 0x200A) || n == 0x2028 || n == 0x2029
    || n == 0x202F || n == 0x205F || n == 0x3000 || n == 0xFEFF
  }

  predicate IsBlank(s: string) {
    forall i :: 0 <= i < |s| ==> IsSpace(s[i])
  }

  function TrimStart(s: string): string {
    if |s| > 0 && IsSpace(s[0]) then TrimStart(s[1..]) else s
  }

  function TrimEnd(s: string): string {
    if |s| > 0 && IsSpace(s[|s| - 1]) then TrimEnd(s[..|s| - 1]) else s
  }

  /** `s.trim()` */
  function Trim(s: string): string {
    TrimEnd(TrimStart(s))
  }

  lemma {:induction false} TrimStartEmptyIffBlank(s: string)
    ensures TrimStart(s) == "" <==> IsBlank(s)
    ensures TrimStart(s) != "" ==> !IsSpace(TrimStart(s)[0])
    decreases |s|
  {
    if |s| > 0 && IsSpace(s[0]) {
      TrimStartEmptyIffBlank(s[1..]);
      assert IsBlank(s) <==> IsBlank(s[1..]) by {
        if IsBlank(s[1..]) {
          forall i | 0 <= i < |s| ensures IsSpace(s[i]) {
            if i > 0 { assert s[i] == s[1..][i - 1]; }
          }
        }
      }
    }
  }

  lemma {:induction false} TrimEndEmptyIffBlank(s: string)
    ensures TrimEnd(s) == "" <==> IsBlank(s)
    decreases |s|
  {
    if |s| > 0 && IsSpace(s[|s| - 1]) {
      TrimEndEmptyIffBlank(s[..|s| - 1]);
      assert IsBlank(s) <==> IsBlank(s[..|s| - 1]) by {
        if IsBlank(s[..|s| - 1]) {
          forall i | 0 <= i < |s| ensures IsSpace(s[i]) {
            if i < |s| - 1 { assert s[i] == s[..|s| - 1][i]; }
          }
        }
      }
    }
  }

  /** `!s.trim()` holds exactly when every character of `s` is white space. */
  lemma TrimEmptyIffBlank(s: string)
    ensures Trim(s) == "" <==> IsBlank(s)
  {
    TrimStartEmptyIffBlank(s);
    TrimEndEmptyIffBlank(TrimStart(s));
  }

  // ---------------------------------------------------------------------------------
  // Case mapping (ASCII letters)
  // ---------------------------------------------------------------------------------

  function LowerChar(c: char): char {
    if 'A' <= c <= 'Z' then (c as int + 32) as char else c
  }

  function UpperChar(c: char): char {
    if 'a' <= c <= 'z' then (c as int - 32) as char else c
  }

  /** `s.toLowerCase()` */
  function ToLower(s: string): (r: string)
    ensures |r| == |s|
  {
    seq(|s|, i requires 0 <= i < |s| => LowerChar(s[i]))
  }

  /** `s.toUpperCase()` */
  function ToUpper(s: string): (r: string)
    ensures |r| == |s|
  {
    seq(|s|, i requires 0 <= i < |s| => UpperChar(s[i]))
  }

  // ---------------------------------------------------------------------------------
  // `includes`, `slice`
  // ---------------------------------------------------------------------------------

  /** `s.includes(t)` */
  predicate Contains(s: string, t: string) {
    exists i :: 0 <= i <= |s| && t <= s[i..]
  }

  /** `s.slice(-n)` for a positive `n`: the last `n` elements, or all of `s` if shorter. */
  function LastN<T>(s: seq<T>, n: nat): seq<T> {
    if |s| <= n then s else s[|s| - n..]
  }

  /** `s.slice(0, n)` */
  function FirstN<T>(s: seq<T>, n: nat): seq<T> {
    if |s| <= n then s else s[..n]
  }

  // ---------------------------------------------------------------------------------
  // `split(' ')` and the first characters of its pieces
  // ---------------------------------------------------------------------------------

  /** `s.split(' ')`: the pieces between single spaces, empty pieces included. */
  function SplitOnSpace(s: string): (r: seq<string>)
    ensures |r| > 0
  {
    if |s| == 0 then [""]
    else
      var rest := SplitOnSpace(s[1..]);
      if s[0] == ' ' then [""] + rest else [[s[0]] + rest[0]] + rest[1..]
  }

  /** `ws.map(n => n[0]).join('')`: an empty piece maps to `undefined`, which `join`
      writes as nothing. */
  function JoinHeads(ws: seq<string>): string {
    if ws == [] then "" else (if ws[0] == "" then "" else [ws[0][0]]) + JoinHeads(ws[1..])
  }

  /** Reference definition: the non-space characters that start the string or follow a
      space. `afterSpace` says whether the previous character was a space (or there was
      none). */
  function WordStarts(s: string, afterSpace: bool): string {
    if s == [] then ""
    else (if afterSpace && s[0] != ' ' then [s[0]] else "") + WordStarts(s[1..], s[0] == ' ')
  }

  /** Splitting on spaces and joining the first characters of the pieces picks exactly
      the word-start characters; after the first piece, the rest pick the word starts
      that follow the first character. */
  lemma {:induction false} JoinHeadsOfSplit(s: string)
    ensures JoinHeads(SplitOnSpace(s)) == WordStarts(s, true)
    ensures JoinHeads(SplitOnSpace(s)[1..]) == WordStarts(s, false)
    decreases |s|
  {
    if |s| > 0 {
      var rest := SplitOnSpace(s[1..]);
      JoinHeadsOfSplit(s[1..]);
      if s[0] == ' ' {
        assert SplitOnSpace(s) == [""] + rest;
        assert ([""] + rest)[1..] == rest;
      } else {
        var first := [s[0]] + rest[0];
        assert SplitOnSpace(s) == [first] + rest[1..];
        assert ([first] + rest[1..])[1..] == rest[1..];
        assert first != "" && first[0] == s[0];
      }
    }
  }

  // ---------------------------------------------------------------------------------
  // `filter`, subsequences, `reduce` sums
  // ---------------------------------------------------------------------------------

  /** `s.filter(p)` */
  function Filter<T>(s: seq<T>, p: T -> bool): (r: seq<T>)
    ensures |r| <= |s|
  {
    if s == [] then [] else Filter(s[..|s| - 1], p) + (if p(s[|s| - 1]) then [s[|s| - 1]] else [])
  }

  /** `a` is `b` with some elements removed and the rest in their original order. */
  predicate IsSubsequence<T(==)>(a: seq<T>, b: seq<T>)
    decreases |b|
  {
    a == [] ||
    (b != [] &&
     (IsSubsequence(a, b[..|b| - 1]) ||
      (a[|a| - 1] == b[|b| - 1] && IsSubsequence(a[..|a| - 1], b[..|b| - 1]))))
  }

  lemma {:induction false} FilterMembers<T>(s: seq<T>, p: T -> bool, x: T)
    ensures x in Filter(s, p) <==> x in s && p(x)
    decreases |s|
  {
    if s != [] {
      FilterMembers(s[..|s| - 1], p, x);
      assert s == s[..|s| - 1] + [s[|s| - 1]];
    }
  }

  lemma {:induction false} FilterIsSubsequence<T>(s: seq<T>, p: T -> bool)
    ensures IsSubsequence(Filter(s, p), s)
    decreases |s|
  {
    if s != [] {
      var init := s[..|s| - 1];
      FilterIsSubsequence(init, p);
      var f := Filter(s, p);
      if p(s[|s| - 1]) {
        assert f[..|f| - 1] == Filter(init, p);
      } else {
        assert f == Filter(init, p);
      }
    }
  }

  /** Two successive filters keep what one filter on the conjunction keeps. */
  lemma {:induction false} FilterFusion<T>(s: seq<T>, p: T -> bool, q: T -> bool, both: T -> bool)
    requires forall x :: both(x) == (p(x) && q(x))
    ensures Filter(Filter(s, p), q) == Filter(s, both)
    decreases |s|
  {
    if s != [] {
      var init, last := s[..|s| - 1], s[|s| - 1];
      FilterFusion(init, p, q, both);
      var f := Filter(s, p);
      if p(last) {
        assert f == Filter(init, p) + [last];
        assert f[..|f| - 1] == Filter(init, p) && f[|f| - 1] == last;
      } else {
        assert f == Filter(init, p);
      }
    }
  }

  lemma {:induction false} FilterKeepsAll<T>(s: seq<T>, p: T -> bool)
    requires forall i :: 0 <= i < |s| ==> p(s[i])
    ensures Filter(s, p) == s
    decreases |s|
  {
    if s != [] {
      FilterKeepsAll(s[..|s| - 1], p);
    }
  }

  lemma {:induction false} FilterSplitsMultiset<T>(s: seq<T>, p: T -> bool, notP: T -> bool)
    requires forall x :: notP(x) == !p(x)
    ensures multiset(Filter(s, p)) + multiset(Filter(s, notP)) == multiset(s)
    decreases |s|
  {
    if s != [] {
      FilterSplitsMultiset(s[..|s| - 1], p, notP);
      assert s == s[..|s| - 1] + [s[|s| - 1]];
    }
  }

  /** `s.reduce((sum, x) => sum + f(x), 0)` */
  function SumOf<T>(s: seq<T>, f: T -> real): real {
    if s == [] then 0.0 else SumOf(s[..|s| - 1], f) + f(s[|s| - 1])
  }

  /** Summing over the filtered list is summing over the whole list with the dropped
      elements counted as zero. */
  lemma {:induction false} SumOfFilter<T>(s: seq<T>, p: T -> bool, f: T -> real, g: T -> real)
    requires forall x :: g(x) == (if p(x) then f(x) else 0.0)
    ensures SumOf(Filter(s, p), f) == SumOf(s, g)
    decreases |s|
  {
    if s != [] {
      SumOfFilter(s[..|s| - 1], p, f, g);
      var fl := Filter(s, p);
      if p(s[|s| - 1]) {
        assert fl == Filter(s[..|s| - 1], p) + [s[|s| - 1]];
        assert fl[..|fl| - 1] == Filter(s[..|s| - 1], p) && fl[|fl| - 1] == s[|s| - 1];
      } else {
        assert fl == Filter(s[..|s| - 1], p);
      }
    }
  }

  lemma {:induction false} SumOfNonNegative<T>(s: seq<T>, f: T -> real)
    requires forall i :: 0 <= i < |s| ==> f(s[i]) >= 0.0
    ensures SumOf(s, f) >= 0.0
    decreases |s|
  {
    if s != [] {
      SumOfNonNegative(s[..|s| - 1], f);
    }
  }

  /** Sums over the same list add pointwise. */
  lemma {:induction false} SumOfAdd<T>(s: seq<T>, f: T -> real, g: T -> real, h: T -> real)
    requires forall x :: h(x) == f(x) + g(x)
    ensures SumOf(s, h) == SumOf(s, f) + SumOf(s, g)
    decreases |s|
  {
    if s != [] {
      SumOfAdd(s[..|s| - 1], f, g, h);
    }
  }

  // ---------------------------------------------------------------------------------
  // `Array.prototype.sort` with a comparator
  // ---------------------------------------------------------------------------------

  /** Places `x`, which came before every element of `r` in the input, after exactly the
      leading elements that the comparator says must precede it. */
  function Insert<T>(x: T, r: seq<T>, cmp: (T, T) -> int): seq<T> {
    if r == [] then [x]
    else if cmp(r[0], x) < 0 then [r[0]] + Insert(x, r[1..], cmp)
    else [x] + r
  }

  /** `[...s].sort(cmp)`: a stable sort, computed as insertion sort. For a comparator that
      is a consistent order this is the one stable ordering the engine must produce. */
  function ArraySort<T>(s: seq<T>, cmp: (T, T) -> int): seq<T> {
    if s == [] then [] else Insert(s[0], ArraySort(s[1..], cmp), cmp)
  }

  lemma {:induction false} InsertPermutes<T>(x: T, r: seq<T>, cmp: (T, T) -> int)
    ensures multiset(Insert(x, r, cmp)) == multiset(r) + multiset{x}
    ensures |Insert(x, r, cmp)| == |r| + 1
    decreases |r|
  {
    if r != [] && cmp(r[0], x) < 0 {
      InsertPermutes(x, r[1..], cmp);
      assert r == [r[0]] + r[1..];
    }
  }

  /** Sorting only reorders: the result is a permutation of the input. */
  lemma {:induction false} ArraySortPermutes<T>(s: seq<T>, cmp: (T, T) -> int)
    ensures multiset(ArraySort(s, cmp)) == multiset(s)
    ensures |ArraySort(s, cmp)| == |s|
    decreases |s|
  {
    if s != [] {
      ArraySortPermutes(s[1..], cmp);
      InsertPermutes(s[0], ArraySort(s[1..], cmp), cmp);
      assert s == [s[0]] + s[1..];
    }
  }

  /** With a comparator that calls every pair a tie, the stable sort keeps the input order. */
  lemma {:induction false} ArraySortAllTies<T>(s: seq<T>, cmp: (T, T) -> int)
    requires forall a, b :: a in s && b in s ==> cmp(a, b) == 0
    ensures ArraySort(s, cmp) == s
    decreases |s|
  {
    if s != [] {
      assert forall a :: a in s[1..] ==> a in s;
      ArraySortAllTies(s[1..], cmp);
      assert s == [s[0]] + s[1..];
    }
  }

  /** `s` runs from the largest key to the smallest. */
  predicate SortedDescBy<T>(s: seq<T>, key: T -> int) {
    forall i, j :: 0 <= i < j < |s| ==> key(s[i]) >= key(s[j])
  }

  /** A head whose key is at least every key of a sorted tail keeps the list sorted. */
  lemma SortedDescCons<T>(h: T, t: seq<T>, key: T -> int)
    requires SortedDescBy(t, key)
    requires forall y :: y in t ==> key(h) >= key(y)
    ensures SortedDescBy([h] + t, key)
  {
    var res := [h] + t;
    forall i, j | 0 <= i < j < |res| ensures key(res[i]) >= key(res[j]) {
      assert res[j] == t[j - 1];
      if i > 0 { assert res[i] == t[i - 1]; } else { assert t[j - 1] in t; }
    }
  }

  /** Into a list sorted newest first by `key`, a comparator returning `key(b) - key(a)`
      inserts `x` in its place. */
  lemma {:induction false} InsertSortedDesc<T>(x: T, r: seq<T>, cmp: (T, T) -> int, key: T -> int)
    requires SortedDescBy(r, key)
    requires forall y :: y in r ==> cmp(y, x) == key(x) - key(y)
    ensures SortedDescBy(Insert(x, r, cmp), key)
    decreases |r|
  {
    if r == [] {
    } else if cmp(r[0], x) < 0 {
      var rest := r[1..];
      assert forall y :: y in rest ==> y in r;
      assert SortedDescBy(rest, key) by {
        forall i, j | 0 <= i < j < |rest| ensures key(rest[i]) >= key(rest[j]) {
          assert rest[i] == r[i + 1] && rest[j] == r[j + 1];
        }
      }
      InsertSortedDesc(x, rest, cmp, key);
      InsertPermutes(x, rest, cmp);
      var ins := Insert(x, rest, cmp);
      forall y | y in ins ensures key(r[0]) >= key(y) {
        assert y in multiset(rest) + multiset{x};
        if y != x {
          var k :| 0 <= k < |rest| && rest[k] == y;
          assert r[k + 1] == y;
        }
      }
      SortedDescCons(r[0], ins, key);
    } else {
      assert r[0] in r;
      forall y | y in r ensures key(x) >= key(y) {
        var k :| 0 <= k < |r| && r[k] == y;
      }
      SortedDescCons(x, r, key);
    }
  }

  /** Sorting with a comparator that returns `key(b) - key(a)` orders the list newest
      first by `key`. */
  lemma {:induction false} ArraySortSortedDesc<T>(s: seq<T>, cmp: (T, T) -> int, key: T -> int)
    requires forall a, b :: a in s && b in s ==> cmp(a, b) == key(b) - key(a)
    ensures SortedDescBy(ArraySort(s, cmp), key)
    decreases |s|
  {
    if s != [] {
      assert forall a :: a in s[1..] ==> a in s;
      ArraySortSortedDesc(s[1..], cmp, key);
      var sorted := ArraySort(s[1..], cmp);
      ArraySortPermutes(s[1..], cmp);
      forall y | y in sorted ensures cmp(y, s[0]) == key(s[0]) - key(y) {
        assert y in multiset(s[1..]);
      }
      InsertSortedDesc(s[0], sorted, cmp, key);
    }
  }

  /** `filter` on a list with one more element in front. */
  lemma {:induction false} FilterCons<T>(x: T, s: seq<T>, p: T -> bool)
    ensures Filter([x] + s, p) == (if p(x) then [x] else []) + Filter(s, p)
    decreases |s|
  {
    if s != [] {
      var init, last := s[..|s| - 1], s[|s| - 1];
      FilterCons(x, init, p);
      assert ([x] + s)[..|s|] == [x] + init;
    } else {
      assert [x] + s == [x];
      assert [x][..0] == [];
    }
  }

  /** Predicates that agree everywhere filter alike. */
  lemma {:induction false} FilterExt<T>(s: seq<T>, p: T -> bool, q: T -> bool)
    requires forall x :: p(x) == q(x)
    ensures Filter(s, p) == Filter(s, q)
    decreases |s|
  {
    if s != [] {
      FilterExt(s[..|s| - 1], p, q);
    }
  }

  /** A sum grows when each summand grows. */
  lemma {:induction false} SumOfMonotone<T>(s: seq<T>, t: seq<T>, f: T -> real)
    requires |s| == |t|
    requires forall i :: 0 <= i < |s| ==> f(s[i]) <= f(t[i])
    ensures SumOf(s, f) <= SumOf(t, f)
    decreases |s|
  {
    if s != [] {
      SumOfMonotone(s[..|s| - 1], t[..|t| - 1], f);
    }
  }

  /** Upper-casing commutes with taking the last `n` characters. */
  lemma LastNToUpper(s: string, n: nat)
    ensures ToUpper(LastN(s, n)) == LastN(ToUpper(s), n)
  {
  }
}
