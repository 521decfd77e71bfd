/** Facts about slicing sequences, stated once for every element type. */
module Seqs {
  import opened Wrappers

  /** Growing a prefix by one element. */
  lemma PrefixStep<T>(s: seq<T>, i: nat)
    requires i < |s|
    ensures s[..i + 1] == s[..i] + [s[i]]
  {
  }

  /** The last element and the rest of a concatenation whose second part
      is not empty. */
  lemma InitOfConcat<T>(a: seq<T>, b: seq<T>)
    requires b != []
    ensures (a + b)[..|a + b| - 1] == a + b[..|b| - 1]
    ensures (a + b)[|a + b| - 1] == b[|b| - 1]
  {
  }

  lemma Assoc<T>(a: seq<T>, b: seq<T>, c: seq<T>)
    ensures a + b + c == a + (b + c)
  {
  }

  /** The values `f` yields on the elements of `xs`, in order, skipping the
      elements it maps to `None`. */
  function Collect<T, U>(xs: seq<T>, f: T -> Option<U>): (r: seq<U>)
    ensures |r| <= |xs|
  {
    if xs == [] then [] else Collect(xs[..|xs| - 1], f) + Kept(f(xs[|xs| - 1]))
  }

  function Kept<U>(o: Option<U>): seq<U> {
    if o.Some? then [o.value] else []
  }

  lemma CollectStep<T, U>(xs: seq<T>, f: T -> Option<U>, i: nat)
    requires i < |xs|
    ensures Collect(xs[..i + 1], f) == Collect(xs[..i], f) + Kept(f(xs[i]))
  {
    PrefixStep(xs, i);
  }

  /** Collecting over two blocks is collecting over each, in order. */
  lemma {:induction false} CollectAppend<T, U>(a: seq<T>, b: seq<T>, f: T -> Option<U>)
    ensures Collect(a + b, f) == Collect(a, f) + Collect(b, f)
    decreases |b|
  {
    if b == [] {
      assert a + b == a;
    } else {
      CollectAppend(a, b[..|b| - 1], f);
      InitOfConcat(a, b);
    }
  }

  /** Nothing is collected exactly when `f` yields `None` everywhere. */
  lemma {:induction false} CollectEmpty<T, U>(xs: seq<T>, f: T -> Option<U>)
    ensures Collect(xs, f) == [] <==> forall j :: 0 <= j < |xs| ==> f(xs[j]).None?
    decreases |xs|
  {
    if xs != [] {
      var init := xs[..|xs| - 1];
      CollectEmpty(init, f);
      assert forall j :: 0 <= j < |init| ==> xs[j] == init[j];
    }
  }

  /** A property of every value `f` yields holds of everything collected. */
  lemma {:induction false} CollectAll<T, U>(xs: seq<T>, f: T -> Option<U>, ok: U -> bool)
    requires forall j :: 0 <= j < |xs| && f(xs[j]).Some? ==> ok(f(xs[j]).value)
    ensures forall k :: 0 <= k < |Collect(xs, f)| ==> ok(Collect(xs, f)[k])
    decreases |xs|
  {
    if xs != [] {
      var init := xs[..|xs| - 1];
      assert forall j :: 0 <= j < |init| ==> init[j] == xs[j];
      CollectAll(init, f, ok);
    }
  }
}
