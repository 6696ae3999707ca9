/** Generic operations on the in-memory record tables that every management
    screen keeps in component state: Array.prototype.filter, map-with-replace,
    find, reduce-to-sum, and the derived counts. */
module Records {

  datatype Option<+T> = None | Some(value: T)

  /** `a` is an order-preserving subsequence of `b` (some elements of `b`
      dropped, none reordered or added). */
  predicate IsSubsequence<T(==)>(a: seq<T>, b: seq<T>)
    decreases |b|
  {
    if a == [] then true
    else if b == [] then false
    else (a[0] == b[0] && IsSubsequence(a[1..], b[1..])) || IsSubsequence(a, b[1..])
  }

  /** Array.prototype.filter. */
  function Filter<T>(s: seq<T>, p: T -> bool): (r: seq<T>)
    ensures |r| <= |s|
    ensures forall x :: x in r ==> x in s && p(x)
    ensures forall x :: x in s && p(x) ==> x in r
    ensures (forall x :: x in s ==> p(x)) ==> r == s
    ensures (forall x :: x in s ==> !p(x)) ==> r == []
  {
    if s == [] then []
    else if p(s[0]) then [s[0]] + Filter(s[1..], p)
    else Filter(s[1..], p)
  }

  lemma {:induction false} FilterIsSubsequence<T>(s: seq<T>, p: T -> bool)
    ensures IsSubsequence(Filter(s, p), s)
  {
    if s != [] {
      FilterIsSubsequence(s[1..], p);
      if p(s[0]) {
        assert ([s[0]] + Filter(s[1..], p))[1..] == Filter(s[1..], p);
      }
    }
  }

  /** Filtering a list with one element appended. */
  lemma {:induction false} FilterAppend<T>(s: seq<T>, x: T, p: T -> bool)
    ensures Filter(s + [x], p) == Filter(s, p) + (if p(x) then [x] else [])
  {
    if s == [] {
      assert s + [x] == [x];
    } else {
      assert (s + [x])[1..] == s[1..] + [x];
      FilterAppend(s[1..], x, p);
    }
  }

  /** A list of pairwise distinct keys. */
  predicate UniqueBy<T>(s: seq<T>, key: T -> int)
  {
    forall i, j :: 0 <= i < j < |s| ==> key(s[i]) != key(s[j])
  }

  /** Distinct keys for a list with a head: a distinct tail none of whose
      keys is the head's. */
  lemma UniqueCons<T>(x: T, t: seq<T>, key: T -> int)
    ensures UniqueBy([x] + t, key) <==> UniqueBy(t, key) && forall y :: y in t ==> key(y) != key(x)
  {
    var s := [x] + t;
    if UniqueBy(s, key) {
      forall i, j | 0 <= i < j < |t| ensures key(t[i]) != key(t[j]) {
        assert t[i] == s[i + 1] && t[j] == s[j + 1];
      }
      forall y | y in t ensures key(y) != key(x) {
        var k :| 0 <= k < |t| && t[k] == y;
        assert s[0] == x && s[k + 1] == y;
        assert 0 < k + 1 < |s|;
      }
    }
    if UniqueBy(t, key) && forall y :: y in t ==> key(y) != key(x) {
      forall i, j | 0 <= i < j < |s| ensures key(s[i]) != key(s[j]) {
        assert s[j] == t[j - 1];
        if i > 0 {
          assert s[i] == t[i - 1];
        }
      }
    }
  }

  lemma {:induction false} FilterKeepsUnique<T>(s: seq<T>, p: T -> bool, key: T -> int)
    requires UniqueBy(s, key)
    ensures UniqueBy(Filter(s, p), key)
  {
    if s != [] {
      assert s == [s[0]] + s[1..];
      UniqueCons(s[0], s[1..], key);
      FilterKeepsUnique(s[1..], p, key);
      if p(s[0]) {
        UniqueCons(s[0], Filter(s[1..], p), key);
      }
    }
  }

  lemma AppendFreshKeepsUnique<T>(s: seq<T>, x: T, key: T -> int)
    requires UniqueBy(s, key)
    requires forall y :: y in s ==> key(y) != key(x)
    ensures UniqueBy(s + [x], key)
  {
    var r := s + [x];
    forall i, j | 0 <= i < j < |r| ensures key(r[i]) != key(r[j]) {
      if j == |s| {
        assert r[i] == s[i] && s[i] in s;
      } else {
        assert r[i] == s[i] && r[j] == s[j];
      }
    }
  }

  /** Array.prototype.map(x => hit(x) ? f(x) : x): every element `hit`
      selects is rewritten by `f`, every other element is kept. */
  function UpdateWhere<T>(s: seq<T>, hit: T -> bool, f: T -> T): (r: seq<T>)
    ensures |r| == |s|
    ensures forall i :: 0 <= i < |s| ==> r[i] == if hit(s[i]) then f(s[i]) else s[i]
  {
    if s == [] then []
    else [if hit(s[0]) then f(s[0]) else s[0]] + UpdateWhere(s[1..], hit, f)
  }

  /** An update whose rewrite keeps the key keeps every key in place, and so
      keeps the keys distinct. */
  lemma UpdateKeepsKeys<T>(s: seq<T>, hit: T -> bool, f: T -> T, key: T -> int)
    requires forall x :: key(f(x)) == key(x)
    ensures forall i :: 0 <= i < |s| ==> key(UpdateWhere(s, hit, f)[i]) == key(s[i])
    ensures UniqueBy(s, key) ==> UniqueBy(UpdateWhere(s, hit, f), key)
  {
  }

  /** Array.prototype.find: the first element that satisfies `p`. */
  function Find<T>(s: seq<T>, p: T -> bool): (r: Option<T>)
    ensures r.None? ==> forall x :: x in s ==> !p(x)
    ensures (forall x :: x in s ==> !p(x)) ==> r.None?
    ensures r.Some? ==> exists k :: 0 <= k < |s| && s[k] == r.value && p(s[k]) &&
                                    forall j :: 0 <= j < k ==> !p(s[j])
  {
    if s == [] then None
    else if p(s[0]) then Some(s[0])
    else
      var r := Find(s[1..], p);
      assert r.Some? ==> exists k :: 0 <= k < |s[1..]| && s[1..][k] == r.value && p(s[1..][k]) &&
                                     forall j :: 0 <= j < k ==> !p(s[1..][j]);
      assert r.Some? ==> exists k :: 1 <= k < |s| && s[k] == r.value && p(s[k]) &&
                                     forall j :: 1 <= j < k ==> !p(s[j]);
      r
  }

  /** reduce((sum, x) => sum + f(x), 0). */
  function SumOf<T>(s: seq<T>, f: T -> int): int
  {
    if s == [] then 0 else f(s[0]) + SumOf(s[1..], f)
  }

  lemma {:induction false} SumOfAppend<T>(s: seq<T>, x: T, f: T -> int)
    ensures SumOf(s + [x], f) == SumOf(s, f) + f(x)
  {
    if s != [] {
      SumOfAppend(s[1..], x, f);
      assert (s + [x])[1..] == s[1..] + [x];
    } else {
      assert [x][1..] == [];
    }
  }

  /** A pointwise smaller summand gives a smaller sum. */
  lemma {:induction false} SumOfMonotone<T>(s: seq<T>, f: T -> int, g: T -> int)
    requires forall x :: x in s ==> f(x) <= g(x)
    ensures SumOf(s, f) <= SumOf(s, g)
  {
    if s != [] {
      SumOfMonotone(s[1..], f, g);
    }
  }

  lemma {:induction false} SumOfNonNegative<T>(s: seq<T>, f: T -> int)
    requires forall x :: x in s ==> 0 <= f(x)
    ensures 0 <= SumOf(s, f)
  {
    if s != [] {
      SumOfNonNegative(s[1..], f);
    }
  }

  /** Summing over the filtered list is summing, over the whole list, a
      summand `g` that is `f` where `p` holds and zero elsewhere. */
  lemma {:induction false} SumOfFilter<T>(s: seq<T>, p: T -> bool, f: T -> int, g: T -> int)
    requires forall x :: g(x) == if p(x) then f(x) else 0
    ensures SumOf(Filter(s, p), f) == SumOf(s, g)
  {
    if s != [] {
      SumOfFilter(s[1..], p, f, g);
      if p(s[0]) {
        assert ([s[0]] + Filter(s[1..], p))[1..] == Filter(s[1..], p);
      }
    }
  }

  /** filter(p).length */
  function Count<T>(s: seq<T>, p: T -> bool): (n: nat)
    ensures n <= |s|
  {
    |Filter(s, p)|
  }

  /** Counts under three predicates no element satisfies two of add up to
      at most the length of the list. */
  lemma {:induction false} CountsOfExclusive<T>(s: seq<T>, p: T -> bool, q: T -> bool, r: T -> bool)
    requires forall x :: x in s ==> !(p(x) && q(x)) && !(p(x) && r(x)) && !(q(x) && r(x))
    ensures Count(s, p) + Count(s, q) + Count(s, r) <= |s|
  {
    if s != [] {
      CountsOfExclusive(s[1..], p, q, r);
    }
  }

  /** filter with a predicate that may throw (None) on some element. The
      whole filter throws as soon as one call throws. */
  function FilterOrThrow<T>(s: seq<T>, p: T -> Option<bool>): (r: Option<seq<T>>)
    ensures r.None? ==> exists x :: x in s && p(x).None?
    ensures (exists x :: x in s && p(x).None?) ==> r.None?
  {
    if s == [] then Some([])
    else match p(s[0])
      case None => None
      case Some(keep) =>
        match FilterOrThrow(s[1..], p)
        case None => None
        case Some(rest) => Some(if keep then [s[0]] + rest else rest)
  }

  /** Where the throwing predicate does not throw and agrees with `q`, the
      filter agrees with the plain filter by `q`. */
  lemma {:induction false} FilterOrThrowAgrees<T>(s: seq<T>, p: T -> Option<bool>, q: T -> bool)
    requires forall x :: x in s ==> p(x).None? || p(x) == Some(q(x))
    ensures FilterOrThrow(s, p).None? || FilterOrThrow(s, p) == Some(Filter(s, q))
    ensures (forall x :: x in s ==> p(x).Some?) ==> FilterOrThrow(s, p) == Some(Filter(s, q))
  {
    if s != [] {
      FilterOrThrowAgrees(s[1..], p, q);
    }
  }
}
