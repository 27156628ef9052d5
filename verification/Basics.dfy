/** Datatypes and sequence facts shared by every component of the model. */
module Basics {

  datatype Option<+T> = None | Some(value: T)

  datatype Result<+T, +E> = Ok(value: T) | Err(error: E)

  /**
   * A key, operation id or container name. The adapters only compare these strings and ask
   * whether trimming one leaves nothing, so a name is which string it is and that answer.
   */
  datatype Name = Name(code: nat, blank: bool)

  /** No element occurs twice: the shape of an insertion-ordered JavaScript Set. */
  ghost predicate Distinct<T>(s: seq<T>) {
    forall i, j :: 0 <= i < j < |s| ==> s[i] != s[j]
  }

  ghost function Elements<T>(s: seq<T>): set<T> {
    set x | x in s
  }

  /** Insertion into an insertion-ordered Set. */
  function Insert<T(==,!new)>(s: seq<T>, x: T): (r: seq<T>)
    ensures x in r
    ensures forall y :: y in r <==> y in s || y == x
    ensures Distinct(s) ==> Distinct(r)
  {
    if x in s then s else s + [x]
  }

  function InsertAll<T(==,!new)>(s: seq<T>, xs: seq<T>): (r: seq<T>)
    ensures forall y :: y in r <==> y in s || y in xs
    ensures Distinct(s) ==> Distinct(r)
    decreases |xs|
  {
    if xs == [] then s else InsertAll(Insert(s, xs[0]), xs[1..])
  }

  lemma DistinctSize<T>(s: seq<T>)
    requires Distinct(s)
    ensures |Elements(s)| == |s|
  {
    if s != [] {
      var n := |s| - 1;
      DistinctSize(s[..n]);
      assert Elements(s) == Elements(s[..n]) + {s[n]};
    }
  }

  lemma DistinctConcat<T>(a: seq<T>, b: seq<T>)
    requires Distinct(a) && Distinct(b) && forall x :: x in a ==> x !in b
    ensures Distinct(a + b)
  {
    var c := a + b;
    forall i, j | 0 <= i < j < |c| ensures c[i] != c[j] {
      assert i < |a| ==> c[i] == a[i] && c[i] in a;
      assert j >= |a| ==> c[j] == b[j - |a|] && c[j] in b;
      assert i >= |a| ==> c[i] == b[i - |a|];
    }
  }

  lemma SubsetSize<T>(a: set<T>, b: set<T>)
    requires a <= b
    ensures |a| <= |b|
    ensures |a| == |b| ==> a == b
  {
    assert b == a + (b - a);
    assert |b| == |a| + |b - a|;
    if |a| == |b| {
      assert b - a == {};
    }
  }

  ghost function Image<A, B>(domain: set<A>, f: map<A, B>): set<B>
    requires domain <= f.Keys
  {
    set x | x in domain :: f[x]
  }

  /** Pigeonhole: an injective image has as many elements as its domain. */
  lemma {:induction false} InjectiveImageSize<A, B>(domain: set<A>, f: map<A, B>)
    requires domain <= f.Keys
    requires forall x, y :: x in domain && y in domain && x != y ==> f[x] != f[y]
    ensures |Image(domain, f)| == |domain|
    decreases |domain|
  {
    if domain != {} {
      var x :| x in domain;
      var rest := domain - {x};
      InjectiveImageSize(rest, f);
      assert Image(domain, f) == Image(rest, f) + {f[x]};
    }
  }

  /** Elements kept by a test, in order. */
  function Keep<T(!new)>(s: seq<T>, test: T -> bool): (r: seq<T>)
    ensures forall x :: x in r <==> x in s && test(x)
    ensures |r| <= |s|
  {
    if s == [] then []
    else if test(s[0]) then [s[0]] + Keep(s[1..], test)
    else Keep(s[1..], test)
  }

  lemma {:induction false} KeepDistinct<T(!new)>(s: seq<T>, test: T -> bool)
    requires Distinct(s)
    ensures Distinct(Keep(s, test))
  {
    if s != [] {
      KeepDistinct(s[1..], test);
      assert s[0] !in s[1..];
    }
  }
}
