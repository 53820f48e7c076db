/**
 * The nullable results of the Kotlin code (`T?`) as a value type, and
 * Kotlin's `mapNotNull` over a list.
 */
module Optional {
  datatype Option<+T> = None | Some(value: T)

  /** An optional value as a list of zero or one element. */
  function AsList<T>(o: Option<T>): (r: seq<T>)
    ensures |r| <= 1 && (r == [] <==> o.None?)
    ensures o.Some? ==> r == [o.value]
  {
    if o.Some? then [o.value] else []
  }

  /** Kotlin's mapNotNull: the non-null results of `f` over `xs`, in order. */
  function MapNotNull<A, B>(xs: seq<A>, f: A -> Option<B>): (r: seq<B>)
    ensures |r| <= |xs|
  {
    if xs == [] then []
    else MapNotNull(xs[..|xs| - 1], f) + AsList(f(xs[|xs| - 1]))
  }

  /** mapNotNull distributes over list concatenation. */
  lemma {:induction false} MapNotNullAppend<A, B>(a: seq<A>, b: seq<A>, f: A -> Option<B>)
    ensures MapNotNull(a + b, f) == MapNotNull(a, f) + MapNotNull(b, f)
    decreases |b|
  {
    if b == [] {
      assert a + b == a;
    } else {
      var b' := b[..|b| - 1];
      assert (a + b)[..|a + b| - 1] == a + b';
      assert (a + b)[|a + b| - 1] == b[|b| - 1];
      MapNotNullAppend(a, b', f);
    }
  }

  /**
   * What mapNotNull keeps: at most one result per input, each result the
   * non-null image of some input, and nothing at all exactly when every image
   * is null.
   */
  lemma {:induction false} MapNotNullFrom<A, B>(xs: seq<A>, f: A -> Option<B>)
    ensures |MapNotNull(xs, f)| <= |xs|
    ensures forall y :: y in MapNotNull(xs, f) ==> exists i :: 0 <= i < |xs| && f(xs[i]) == Some(y)
    ensures MapNotNull(xs, f) == [] <==> forall i :: 0 <= i < |xs| ==> f(xs[i]).None?
    decreases |xs|
  {
    if xs != [] {
      var init := xs[..|xs| - 1];
      var last := f(xs[|xs| - 1]);
      MapNotNullFrom(init, f);
      assert MapNotNull(xs, f) == MapNotNull(init, f) + AsList(last);
      assert forall i :: 0 <= i < |init| ==> init[i] == xs[i];
    }
  }

  /** Every non-null image of an input is kept. */
  lemma {:induction false} MapNotNullKeeps<A, B>(xs: seq<A>, f: A -> Option<B>, i: nat)
    requires i < |xs| && f(xs[i]).Some?
    ensures f(xs[i]).value in MapNotNull(xs, f)
    decreases |xs|
  {
    if i < |xs| - 1 {
      var init := xs[..|xs| - 1];
      assert init[i] == xs[i];
      MapNotNullKeeps(init, f, i);
    }
  }
}
