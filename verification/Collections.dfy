/** Sequence operations shared by the models, with the laws the proofs use. */
module Collections {

  datatype Option<+T> = None | Some(value: T)

  /** The elements of `s` that satisfy `p`, in order (`DELETE`/`WHERE`, iterator `filter`). */
  function Filter<T(!new)>(s: seq<T>, p: T -> bool): (r: seq<T>)
    ensures forall x :: x in r <==> x in s && p(x)
    ensures |r| <= |s|
  {
    if s == [] then []
    else
      var last := s[|s| - 1];
      assert s == s[..|s| - 1] + [last];
      Filter(s[..|s| - 1], p) + (if p(last) then [last] else [])
  }

  /** `f` applied to every element, in order. */
  function Map<T, U>(s: seq<T>, f: T -> U): (r: seq<U>)
    ensures |r| == |s|
    ensures forall i :: 0 <= i < |s| ==> r[i] == f(s[i])
  {
    seq(|s|, i requires 0 <= i < |s| => f(s[i]))
  }

  lemma {:induction false} FilterConcat<T(!new)>(a: seq<T>, b: seq<T>, p: T -> bool)
    ensures Filter(a + b, p) == Filter(a, p) + Filter(b, p)
  {
    if b == [] {
      assert a + b == a;
    } else {
      var n := |b| - 1;
      assert (a + b)[..|a + b| - 1] == a + b[..n];
      FilterConcat(a, b[..n], p);
    }
  }

  /** Only the values `p` takes on the elements of `s` matter. */
  lemma {:induction false} FilterCong<T(!new)>(s: seq<T>, p: T -> bool, q: T -> bool)
    requires forall x :: x in s ==> p(x) == q(x)
    ensures Filter(s, p) == Filter(s, q)
  {
    if s != [] {
      FilterCong(s[..|s| - 1], p, q);
    }
  }

  lemma {:induction false} FilterAll<T(!new)>(s: seq<T>, p: T -> bool)
    requires forall x :: x in s ==> p(x)
    ensures Filter(s, p) == s
  {
    if s != [] {
      var init, last := s[..|s| - 1], s[|s| - 1];
      assert s == init + [last];
      FilterAll(init, p);
      assert last in s;
    }
  }

  lemma {:induction false} FilterNone<T(!new)>(s: seq<T>, p: T -> bool)
    requires forall x :: x in s ==> !p(x)
    ensures Filter(s, p) == []
  {
    if s != [] {
      FilterNone(s[..|s| - 1], p);
    }
  }

  /** Dropping first what `q` rejects does not change what `p` keeps, if `q` accepts all of it. */
  lemma {:induction false} FilterFilter<T(!new)>(s: seq<T>, q: T -> bool, p: T -> bool)
    requires forall x :: x in s && p(x) ==> q(x)
    ensures Filter(Filter(s, q), p) == Filter(s, p)
  {
    if s != [] {
      var init, last := s[..|s| - 1], s[|s| - 1];
      assert s == init + [last];
      FilterFilter(init, q, p);
      FilterConcat(Filter(init, q), if q(last) then [last] else [], p);
      FilterSingle(last, p);
      assert Filter<T>([], p) == [];
    }
  }

  lemma FilterSingle<T(!new)>(x: T, p: T -> bool)
    ensures Filter([x], p) == if p(x) then [x] else []
  {
    assert [x][..0] == [];
    assert Filter<T>([], p) == [];
  }

  /** Filtering after a map is filtering the arguments first. */
  lemma {:induction false} FilterMap<T(!new), U(!new)>(s: seq<T>, f: T -> U, p: U -> bool, q: T -> bool)
    requires forall x :: x in s ==> q(x) == p(f(x))
    ensures Filter(Map(s, f), p) == Map(Filter(s, q), f)
  {
    if s != [] {
      var init, last := s[..|s| - 1], s[|s| - 1];
      FilterMap(init, f, p, q);
      assert Map(s, f)[..|s| - 1] == Map(init, f);
    }
  }

  lemma MapCong<T, U>(s: seq<T>, f: T -> U, g: T -> U)
    requires forall x :: x in s ==> f(x) == g(x)
    ensures Map(s, f) == Map(s, g)
  {
  }

  lemma MapIdentity<T>(s: seq<T>, f: T -> T)
    requires forall x :: x in s ==> f(x) == x
    ensures Map(s, f) == s
  {
  }

  lemma MapConcat<T, U>(a: seq<T>, b: seq<T>, f: T -> U)
    ensures Map(a + b, f) == Map(a, f) + Map(b, f)
  {
  }

  /** Two sequences that agree position by position on what is kept and on what it is mapped to. */
  lemma {:induction false} SelectCong<A(!new), B(!new), C>(
    a: seq<A>, p: A -> bool, f: A -> C, b: seq<B>, q: B -> bool, g: B -> C)
    requires |a| == |b|
    requires forall i :: 0 <= i < |a| ==> p(a[i]) == q(b[i]) && (p(a[i]) ==> f(a[i]) == g(b[i]))
    ensures Map(Filter(a, p), f) == Map(Filter(b, q), g)
  {
    if a != [] {
      SelectCong(a[..|a| - 1], p, f, b[..|b| - 1], q, g);
    }
  }
}
