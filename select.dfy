/** Order-preserving selection from a sequence: the filter-then-map shape of a loop that appends what passes a test. */
module Selection {

  function Id<T>(x: T): T {
    x
  }

  /** The images under `f` of the elements that pass `keep`, in order. */
  function Sift<T>(es: seq<T>, keep: T -> bool, f: T -> T): (r: seq<T>)
    ensures |r| <= |es|
  {
    if es == [] then []
    else Sift(es[..|es| - 1], keep, f) + (if keep(es[|es| - 1]) then [f(es[|es| - 1])] else [])
  }

  /** The positions of the elements that pass `keep`, in order. */
  function Positions<T>(es: seq<T>, keep: T -> bool): (idx: seq<nat>)
    ensures forall j :: 0 <= j < |idx| ==> idx[j] < |es|
  {
    if es == [] then []
    else Positions(es[..|es| - 1], keep) + (if keep(es[|es| - 1]) then [|es| - 1] else [])
  }

  predicate Increasing(idx: seq<nat>) {
    forall a, b :: 0 <= a < b < |idx| ==> idx[a] < idx[b]
  }

  /**
   * Sifting is an order-preserving selection: the kept positions increase, are
   * exactly the positions that pass, and the j-th result is the image of the
   * element at the j-th kept position.
   */
  lemma {:induction false} SiftIsSelection<T>(es: seq<T>, keep: T -> bool, f: T -> T)
    ensures |Positions(es, keep)| == |Sift(es, keep, f)|
    ensures Increasing(Positions(es, keep))
    ensures forall j :: 0 <= j < |Positions(es, keep)| ==> Sift(es, keep, f)[j] == f(es[Positions(es, keep)[j]])
    ensures forall i :: 0 <= i < |es| ==> (i in Positions(es, keep) <==> keep(es[i]))
  {
    SiftPositions(es, keep, f);
    PositionsIncrease(es, keep);
    PositionsPass(es, keep);
  }

  lemma {:induction false} SiftPositions<T>(es: seq<T>, keep: T -> bool, f: T -> T)
    ensures |Positions(es, keep)| == |Sift(es, keep, f)|
    ensures forall j :: 0 <= j < |Positions(es, keep)| ==> Sift(es, keep, f)[j] == f(es[Positions(es, keep)[j]])
  {
    if es != [] {
      var p := es[..|es| - 1];
      SiftPositions(p, keep, f);
      var ip := Positions(p, keep);
      forall j | 0 <= j < |ip|
        ensures Sift(es, keep, f)[j] == f(es[ip[j]])
      {
        assert p[ip[j]] == es[ip[j]];
      }
    }
  }

  lemma {:induction false} PositionsIncrease<T>(es: seq<T>, keep: T -> bool)
    ensures Increasing(Positions(es, keep))
  {
    if es != [] {
      PositionsIncrease(es[..|es| - 1], keep);
    }
  }

  lemma {:induction false} PositionsPass<T>(es: seq<T>, keep: T -> bool)
    ensures forall i :: 0 <= i < |es| ==> (i in Positions(es, keep) <==> keep(es[i]))
  {
    if es != [] {
      var p := es[..|es| - 1];
      PositionsPass(p, keep);
      assert forall i :: 0 <= i < |p| ==> p[i] == es[i];
    }
  }

  /** The length of the longest prefix whose elements all pass `ok`. */
  function LeadingRun<T>(es: seq<T>, ok: T -> bool): (n: nat)
    ensures n <= |es|
    ensures forall i :: 0 <= i < n ==> ok(es[i])
    ensures n < |es| ==> !ok(es[n])
  {
    if es == [] || !ok(es[0]) then 0 else 1 + LeadingRun(es[1..], ok)
  }

  /** Sifting one more element appends its image iff it passes. */
  lemma SiftSnoc<T>(es: seq<T>, i: nat, keep: T -> bool, f: T -> T)
    requires i < |es|
    ensures Sift(es[..i + 1], keep, f) == Sift(es[..i], keep, f) + (if keep(es[i]) then [f(es[i])] else [])
  {
    assert es[..i + 1][..i] == es[..i];
    assert es[..i + 1][i] == es[i];
  }

  /** The sequence after its first `n` elements were replaced by their images under `f`, one at a time. */
  function Rewritten<T>(es: seq<T>, n: nat, f: T -> T): (r: seq<T>)
    requires n <= |es|
    ensures |r| == |es|
  {
    if n == 0 then es else Rewritten(es, n - 1, f)[n - 1 := f(es[n - 1])]
  }

  /** The elements before `n` are rewritten, the rest are untouched. */
  lemma {:induction false} RewrittenAt<T>(es: seq<T>, n: nat, f: T -> T)
    requires n <= |es|
    ensures forall j :: 0 <= j < |es| ==> Rewritten(es, n, f)[j] == if j < n then f(es[j]) else es[j]
  {
    if n > 0 {
      RewrittenAt(es, n - 1, f);
    }
  }

  /** Rewriting an element to itself changes nothing. */
  lemma RewriteFixed<T>(es: seq<T>, n: nat, f: T -> T)
    requires n < |es| && f(es[n]) == es[n]
    ensures Rewritten(es, n + 1, f) == Rewritten(es, n, f)
  {
    RewrittenAt(es, n, f);
    RewrittenAt(es, n + 1, f);
  }
}
