/**
 Shared vocabulary: optional values, the code-point order on text that both SQLite's
 binary collation and Python's string comparison use, and set-size helpers.
 */
module Prelude {

  datatype Option<+T> = None | Some(value: T)

  function Max(a: int, b: int): int { if a < b then b else a }

  function Min(a: int, b: int): int { if a < b then a else b }

  /** Unsigned subtraction that stops at zero. */
  function SatSub(a: nat, b: nat): nat { if a < b then 0 else a - b }

  const U32_MAX := 0xFFFF_FFFF
  const U64_MAX := 0xFFFF_FFFF_FFFF_FFFF

  type u32 = x: nat | x <= U32_MAX

  // ------------------------------------------------------------ order on text

  /** `a` comes strictly before `b` in code-point order. */
  predicate TextLess(a: string, b: string)
  {
    b != [] && (a == [] || a[0] < b[0] || (a[0] == b[0] && TextLess(a[1..], b[1..])))
  }

  lemma {:induction false} TextLessTotal(a: string, b: string)
    ensures a == b || TextLess(a, b) || TextLess(b, a)
  {
    if a != [] && b != [] && a[0] == b[0] {
      TextLessTotal(a[1..], b[1..]);
      assert a == [a[0]] + a[1..] && b == [b[0]] + b[1..];
    }
  }

  lemma {:induction false} TextLessAsym(a: string, b: string)
    requires TextLess(a, b)
    ensures !TextLess(b, a) && a != b
  {
    if a != [] && a[0] == b[0] {
      TextLessAsym(a[1..], b[1..]);
    }
  }

  lemma {:induction false} TextLessTrans(a: string, b: string, c: string)
    requires TextLess(a, b) && TextLess(b, c)
    ensures TextLess(a, c)
  {
    if a != [] && a[0] == b[0] && b[0] == c[0] {
      TextLessTrans(a[1..], b[1..], c[1..]);
    }
  }

  /** Read without recursion: equal up to some point, where `a` ends first or has the smaller character. */
  lemma {:induction false} TextLessIff(a: string, b: string)
    ensures TextLess(a, b) <==>
            exists n :: 0 <= n <= |a| && n < |b| && a[..n] == b[..n] && (n == |a| || a[n] < b[n])
  {
    if TextLess(a, b) {
      if a == [] || a[0] != b[0] {
        assert a[..0] == b[..0];
      } else {
        TextLessIff(a[1..], b[1..]);
        var m :| 0 <= m <= |a[1..]| && m < |b[1..]| && a[1..][..m] == b[1..][..m] && (m == |a[1..]| || a[1..][m] < b[1..][m]);
        assert a[..m + 1] == [a[0]] + a[1..][..m] && b[..m + 1] == [b[0]] + b[1..][..m];
      }
    } else if n :| 0 <= n <= |a| && n < |b| && a[..n] == b[..n] && (n == |a| || a[n] < b[n]) {
      if n > 0 {
        assert a[0] == a[..n][0] && b[0] == b[..n][0];
        assert a[1..][..n - 1] == a[..n][1..] && b[1..][..n - 1] == b[..n][1..];
        TextLessIff(a[1..], b[1..]);
      }
    }
  }

  // ------------------------------------------------------------ texts in order

  ghost predicate TextOrdered(r: seq<string>) { forall i, j :: 0 <= i < j < |r| ==> TextLess(r[i], r[j]) }

  function WithText(r: seq<string>, s: string): seq<string>
  {
    if r == [] || TextLess(s, r[0]) then [s] + r else [r[0]] + WithText(r[1..], s)
  }

  lemma {:induction false} WithTextOrdered(r: seq<string>, s: string)
    requires TextOrdered(r) && s !in r
    ensures TextOrdered(WithText(r, s)) && forall p :: p in WithText(r, s) <==> p in r || p == s
  {
    hide TextLess;
    if r != [] {
      if TextLess(s, r[0]) {
        forall j | 0 <= j < |r| ensures TextLess(s, r[j]) {
          if j > 0 { TextLessTrans(s, r[0], r[j]); }
        }
      } else {
        TextLessTotal(s, r[0]);
        WithTextOrdered(r[1..], s);
        var rest := WithText(r[1..], s);
        forall j | 0 <= j < |rest| ensures TextLess(r[0], rest[j]) {
          assert rest[j] in rest;
        }
      }
    }
  }

  /** Some texts, each once, in order. */
  method SortedTexts(texts: set<string>) returns (r: seq<string>)
    ensures TextOrdered(r) && forall p :: p in r <==> p in texts
  {
    hide TextLess, TextOrdered, WithText;
    r := [];
    var left := texts;
    NoTexts();
    while left != {}
      invariant left <= texts && TextOrdered(r) && forall p :: p in r <==> p in texts && p !in left
      decreases |left|
    {
      var s :| s in left;
      WithTextOrdered(r, s);
      r := WithText(r, s);
      left := left - {s};
    }
  }

  lemma NoTexts()
    ensures TextOrdered([])
  {
  }

  // ------------------------------------------------------------- finite sets

  ghost predicate LinearOrder<T(!new)>(less: (T, T) -> bool)
  {
    && (forall a, b :: a == b || less(a, b) || less(b, a))
    && (forall a, b, c :: less(a, b) && less(b, c) ==> less(a, c))
  }

  /** A finite set has a least element. */
  lemma {:induction false} LeastOf<T(!new)>(s: set<T>, less: (T, T) -> bool) returns (r: T)
    requires s != {} && LinearOrder(less)
    ensures r in s && forall q :: q in s ==> q == r || less(r, q)
    decreases |s|
  {
    r :| r in s;
    if s != {r} {
      var q := LeastOf(s - {r}, less);
      if less(q, r) {
        r := q;
      } else {
        assert less(r, q);
      }
    }
  }

  lemma {:induction false} SubsetSize<T>(a: set<T>, b: set<T>)
    requires a <= b
    ensures |a| <= |b|
  {
    if a != {} {
      var x :| x in a;
      SubsetSize(a - {x}, b - {x});
    }
  }

  lemma SplitSize<T>(a: set<T>, b: set<T>)
    ensures |a| <= |a - b| + |b|
  {
    SubsetSize(a * b, b);
    assert a == (a - b) + (a * b);
  }

  /** The image of a set under an injective map is as large as the set. */
  lemma {:induction false} InjectiveImageSize<K, V>(m: map<K, V>, keys: set<K>, image: set<V>)
    requires keys <= m.Keys
    requires forall k, l :: k in keys && l in keys && m[k] == m[l] ==> k == l
    requires forall k :: k in keys ==> m[k] in image
    ensures |keys| <= |image|
  {
    if keys != {} {
      var k :| k in keys;
      InjectiveImageSize(m, keys - {k}, image - {m[k]});
    }
  }
}
