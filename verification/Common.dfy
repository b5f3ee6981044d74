/** Value types and sums shared by the ledgers. Every amount is an exact real. */
module Common {

  datatype Option<+T> = None | Some(value: T)

  datatype Side = Buy | Sell {
    function Opposite(): Side {
      match this
      case Buy => Sell
      case Sell => Buy
    }
  }

  function Min(a: real, b: real): real {
    if a <= b then a else b
  }

  /** An absent amount counts as zero. */
  function OrZero(a: Option<real>): real {
    match a
    case None => 0.0
    case Some(x) => x
  }

  /** `Option += x`: an absent amount becomes x. */
  function PlusSome(a: Option<real>, x: real): Option<real> {
    match a
    case None => Some(x)
    case Some(y) => Some(y + x)
  }

  /** n times t. */
  function Times(n: nat, t: real): real {
    if n == 0 then 0.0 else t + Times(n - 1, t)
  }

  lemma {:induction false} TimesIsProduct(n: nat, t: real)
    ensures Times(n, t) == n as real * t
  {
    if n > 0 {
      TimesIsProduct(n - 1, t);
      assert n as real * t == (n - 1) as real * t + t;
    }
  }

  lemma {:induction false} TimesGrows(m: nat, n: nat, t: real)
    requires m <= n && 0.0 <= t
    ensures 0.0 <= Times(m, t) <= Times(n, t)
  {
    if m < n {
      TimesGrows(m, n - 1, t);
    } else if n > 0 {
      TimesGrows(n - 1, n - 1, t);
    }
  }

  lemma {:induction false} TimesOfNothing(n: nat, t: real)
    requires t == 0.0
    ensures Times(n, t) == t
  {
    if n > 0 {
      TimesOfNothing(n - 1, t);
    }
  }

  function SumBy<T>(xs: seq<T>, f: T -> real): real {
    if xs == [] then 0.0 else f(xs[0]) + SumBy(xs[1..], f)
  }

  lemma SumByOne<T>(x: T, f: T -> real)
    ensures SumBy([x], f) == f(x)
  {
    assert [x][1..] == [];
  }

  lemma {:induction false} SumByAppend<T>(xs: seq<T>, ys: seq<T>, f: T -> real)
    ensures SumBy(xs + ys, f) == SumBy(xs, f) + SumBy(ys, f)
  {
    if xs == [] {
      assert xs + ys == ys;
    } else {
      assert (xs + ys)[1..] == xs[1..] + ys;
      SumByAppend(xs[1..], ys, f);
    }
  }

  lemma {:induction false} SumByUpdate<T>(xs: seq<T>, i: nat, y: T, f: T -> real)
    requires i < |xs|
    ensures SumBy(xs[i := y], f) == SumBy(xs, f) - f(xs[i]) + f(y)
  {
    if i == 0 {
      assert xs[i := y][1..] == xs[1..];
    } else {
      assert xs[i := y][1..] == xs[1..][i - 1 := y];
      SumByUpdate(xs[1..], i - 1, y, f);
    }
  }

  lemma {:induction false} SumByRemove<T>(xs: seq<T>, i: nat, f: T -> real)
    requires i < |xs|
    ensures SumBy(xs[..i] + xs[i + 1..], f) == SumBy(xs, f) - f(xs[i])
  {
    SumByAppend(xs[..i], xs[i + 1..], f);
    SumByAppend(xs[..i], xs[i..], f);
    assert xs == xs[..i] + xs[i..];
    assert xs[i..][1..] == xs[i + 1..];
  }

  lemma {:induction false} SumByNonNegative<T>(xs: seq<T>, f: T -> real)
    requires forall i :: 0 <= i < |xs| ==> f(xs[i]) >= 0.0
    ensures SumBy(xs, f) >= 0.0
  {
    if xs != [] {
      SumByNonNegative(xs[1..], f);
    }
  }

  /** Each of n summands at most b gives a total of at most n * b. */
  lemma {:induction false} SumByAtMost<T>(xs: seq<T>, f: T -> real, b: real)
    requires forall i :: 0 <= i < |xs| ==> f(xs[i]) <= b
    ensures SumBy(xs, f) <= |xs| as real * b
  {
    if xs != [] {
      SumByAtMost(xs[1..], f, b);
      assert |xs| as real * b == (|xs| - 1) as real * b + b;
    }
  }

  lemma MultisetRemove<T>(xs: seq<T>, i: nat)
    requires i < |xs|
    ensures multiset(xs) == multiset(xs[..i] + xs[i + 1..]) + multiset{xs[i]}
  {
    assert xs == xs[..i] + [xs[i]] + xs[i + 1..];
  }

  lemma SubMultisetTail<T(!new)>(xs: seq<T>, bag: multiset<T>, rest: multiset<T>)
    requires xs != [] && multiset(xs) <= bag && bag == rest + multiset{xs[0]}
    ensures multiset(xs[1..]) <= rest
  {
    assert xs == [xs[0]] + xs[1..];
    assert multiset(xs) == multiset(xs[1..]) + multiset{xs[0]};
    forall x | x in multiset(xs[1..]) ensures multiset(xs[1..])[x] <= rest[x] {
      assert multiset(xs)[x] <= bag[x];
    }
  }

  lemma {:induction false} SumByPermutation<T(!new)>(xs: seq<T>, ys: seq<T>, f: T -> real)
    requires multiset(xs) == multiset(ys)
    ensures SumBy(xs, f) == SumBy(ys, f)
  {
    if xs == [] {
      assert |ys| == |multiset(ys)| == |multiset(xs)|;
    } else {
      assert xs[0] in multiset(ys);
      var i :| 0 <= i < |ys| && ys[i] == xs[0];
      assert xs == [xs[0]] + xs[1..];
      MultisetRemove(ys, i);
      assert multiset(xs[1..]) == multiset(xs) - multiset{xs[0]};
      SumByPermutation(xs[1..], ys[..i] + ys[i + 1..], f);
      SumByRemove(ys, i, f);
    }
  }

  /** The images of xs under f, in order. */
  function Image<T, U>(xs: seq<T>, f: T -> U): seq<U> {
    seq(|xs|, i requires 0 <= i < |xs| => f(xs[i]))
  }

  lemma ImageAt<T, U>(xs: seq<T>, i: nat, f: T -> U)
    requires i < |xs|
    ensures |Image(xs, f)| == |xs| && Image(xs, f)[i] == f(xs[i])
  {
  }

  lemma ImageFirst<T, U>(xs: seq<T>, f: T -> U)
    requires xs != []
    ensures Image(xs, f) == [f(xs[0])] + Image(xs[1..], f)
  {
  }

  lemma ImageAppend<T, U>(xs: seq<T>, ys: seq<T>, f: T -> U)
    ensures Image(xs + ys, f) == Image(xs, f) + Image(ys, f)
  {
  }

  lemma ImageRemove<T, U>(xs: seq<T>, i: nat, f: T -> U)
    requires i < |xs|
    ensures multiset(Image(xs, f)) == multiset(Image(xs[..i] + xs[i + 1..], f)) + multiset{f(xs[i])}
  {
    var rest := xs[..i] + xs[i + 1..];
    assert Image(xs, f) == Image(rest, f)[..i] + [f(xs[i])] + Image(rest, f)[i..];
    assert Image(rest, f) == Image(rest, f)[..i] + Image(rest, f)[i..];
  }

  lemma {:induction false} ImagePermutation<T(!new), U(!new)>(xs: seq<T>, ys: seq<T>, f: T -> U)
    requires multiset(xs) == multiset(ys)
    ensures multiset(Image(xs, f)) == multiset(Image(ys, f))
  {
    if xs == [] {
      assert |ys| == |multiset(ys)| == |multiset(xs)|;
    } else {
      assert xs[0] in multiset(ys);
      var i :| 0 <= i < |ys| && ys[i] == xs[0];
      assert xs == [xs[0]] + xs[1..];
      MultisetRemove(ys, i);
      assert multiset(xs[1..]) == multiset(xs) - multiset{xs[0]};
      ImagePermutation(xs[1..], ys[..i] + ys[i + 1..], f);
      assert Image(xs, f) == [f(xs[0])] + Image(xs[1..], f);
      ImageRemove(ys, i, f);
    }
  }

  lemma {:induction false} SumByImage<T, U>(xs: seq<T>, f: T -> U, g: U -> real, h: T -> real)
    requires forall x :: x in xs ==> g(f(x)) == h(x)
    ensures SumBy(Image(xs, f), g) == SumBy(xs, h)
  {
    if xs != [] {
      assert Image(xs, f)[1..] == Image(xs[1..], f);
      SumByImage(xs[1..], f, g, h);
    }
  }

  /** The total of f over a finite set of keys. */
  ghost function SumOver<K(!new)>(s: set<K>, f: K -> real): real {
    if s == {} then 0.0 else
      var k :| k in s;
      f(k) + SumOver(s - {k}, f)
  }

  lemma {:induction false} SumOverTake<K(!new)>(s: set<K>, f: K -> real, k: K)
    requires k in s
    ensures SumOver(s, f) == f(k) + SumOver(s - {k}, f)
    decreases |s|
  {
    var c :| c in s && SumOver(s, f) == f(c) + SumOver(s - {c}, f);
    if c != k {
      SumOverTake(s - {c}, f, k);
      SumOverTake(s - {k}, f, c);
      assert s - {c} - {k} == s - {k} - {c};
    }
  }

  lemma {:induction false} SumOverSame<K(!new)>(s: set<K>, f: K -> real, g: K -> real)
    requires forall k :: k in s ==> f(k) == g(k)
    ensures SumOver(s, f) == SumOver(s, g)
  {
    if s != {} {
      var c :| c in s && SumOver(s, f) == f(c) + SumOver(s - {c}, f);
      SumOverTake(s, g, c);
      SumOverSame(s - {c}, f, g);
    }
  }

  /** Changing f at one key changes the total by as much. */
  lemma SumOverChange<K(!new)>(s: set<K>, f: K -> real, g: K -> real, k: K)
    requires k in s && forall j :: j in s && j != k ==> f(j) == g(j)
    ensures SumOver(s, g) == SumOver(s, f) - f(k) + g(k)
  {
    SumOverTake(s, f, k);
    SumOverTake(s, g, k);
    SumOverSame(s - {k}, f, g);
  }

  lemma SumOverAdd<K(!new)>(s: set<K>, f: K -> real, k: K)
    requires k !in s
    ensures SumOver(s + {k}, f) == SumOver(s, f) + f(k)
  {
    SumOverTake(s + {k}, f, k);
    assert s + {k} - {k} == s;
  }

  lemma {:induction false} SumOverSplit<K(!new)>(s: set<K>, part: set<K>, f: K -> real)
    requires part <= s
    ensures SumOver(s, f) == SumOver(part, f) + SumOver(s - part, f)
  {
    if part == {} {
      assert s - part == s;
    } else {
      var k :| k in part;
      SumOverTake(s, f, k);
      SumOverTake(part, f, k);
      SumOverSplit(s - {k}, part - {k}, f);
      assert s - {k} - (part - {k}) == s - part;
    }
  }

  lemma {:induction false} SumOverZero<K(!new)>(s: set<K>, f: K -> real)
    requires forall k :: k in s ==> f(k) == 0.0
    ensures SumOver(s, f) == 0.0
  {
    if s != {} {
      var k :| k in s && SumOver(s, f) == f(k) + SumOver(s - {k}, f);
      SumOverZero(s - {k}, f);
    }
  }

  lemma {:induction false} SumOverNonNegative<K(!new)>(s: set<K>, f: K -> real)
    requires forall k :: k in s ==> 0.0 <= f(k)
    ensures 0.0 <= SumOver(s, f)
  {
    if s != {} {
      var k :| k in s && SumOver(s, f) == f(k) + SumOver(s - {k}, f);
      SumOverNonNegative(s - {k}, f);
    }
  }

  /** Of nonnegative amounts each one is at most their total. */
  lemma SumOverAtLeast<K(!new)>(s: set<K>, f: K -> real, k: K)
    requires k in s && forall j :: j in s ==> 0.0 <= f(j)
    ensures f(k) <= SumOver(s, f)
  {
    SumOverTake(s, f, k);
    SumOverNonNegative(s - {k}, f);
  }
}
