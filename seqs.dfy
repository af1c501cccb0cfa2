/** Sequence helpers: order-preserving filtering and string joining. */
module Seqs {

  /** The elements of `xs` that satisfy `p`, in their original order (Array.prototype.filter). */
  function Keep<T>(xs: seq<T>, p: T -> bool): (r: seq<T>)
    ensures |r| <= |xs|
    ensures forall i :: 0 <= i < |r| ==> r[i] in xs && p(r[i])
  {
    if xs == [] then []
    else
      assert xs == [xs[0]] + xs[1..];
      (if p(xs[0]) then [xs[0]] else []) + Keep(xs[1..], p)
  }

  /** Nothing that satisfies `p` is dropped. */
  lemma {:induction false} KeepRetains<T>(xs: seq<T>, p: T -> bool, i: nat)
    requires i < |xs| && p(xs[i])
    ensures xs[i] in Keep(xs, p)
  {
    if i > 0 {
      KeepRetains(xs[1..], p, i - 1);
      assert xs[1..][i - 1] == xs[i];
    }
  }

  /** Filtering a sequence extended by one element extends the filtered sequence by at most that element. */
  lemma {:induction false} KeepSnoc<T>(xs: seq<T>, x: T, p: T -> bool)
    ensures Keep(xs + [x], p) == Keep(xs, p) + (if p(x) then [x] else [])
  {
    if xs == [] {
      assert xs + [x] == [x];
    } else {
      assert (xs + [x])[1..] == xs[1..] + [x];
      KeepSnoc(xs[1..], x, p);
    }
  }

  /**
   * Two sequences of equal length filter to the same result when, position by
   * position, the predicates agree and the elements agree wherever they are kept.
   */
  lemma {:induction false} KeepAgree<T>(xs: seq<T>, ys: seq<T>, p: T -> bool, q: T -> bool)
    requires |xs| == |ys|
    requires forall i :: 0 <= i < |xs| ==> p(xs[i]) == q(ys[i])
    requires forall i :: 0 <= i < |xs| && p(xs[i]) ==> xs[i] == ys[i]
    ensures Keep(xs, p) == Keep(ys, q)
  {
    if xs != [] {
      assert p(xs[0]) == q(ys[0]);
      KeepAgree(xs[1..], ys[1..], p, q);
    }
  }

  /** The parts separated by `sep` (Array.prototype.join). */
  function Join(parts: seq<string>, sep: string): string
  {
    if parts == [] then ""
    else if |parts| == 1 then parts[0]
    else parts[0] + sep + Join(parts[1..], sep)
  }

  /** A joined string begins with its first part; joining nothing yields the empty string. */
  lemma JoinStartsWithFirst(parts: seq<string>, sep: string)
    ensures parts == [] ==> Join(parts, sep) == ""
    ensures parts != [] ==> parts[0] <= Join(parts, sep)
  {
  }
}
