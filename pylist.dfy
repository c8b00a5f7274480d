/** What `list.remove(x)` leaves behind, stated positionally. */
module PyList {

  /** `r` is `xs` with the occurrence of `x` at index `i` taken out, and there is none before it. */
  predicate DropsFirstAt<T(==)>(xs: seq<T>, x: T, i: int, r: seq<T>)
  {
    0 <= i < |xs| && xs[i] == x && x !in xs[..i] && r == xs[..i] + xs[i + 1..]
  }

  /** Removing a leading `x` drops it at index 0. */
  lemma DropsFirstAtHead<T>(xs: seq<T>, x: T)
    requires xs != [] && xs[0] == x
    ensures DropsFirstAt(xs, x, 0, xs[1..])
  {
    assert xs[..0] == [] && xs[1..] == xs[..0] + xs[0 + 1..];
  }

  /** An element other than `x` in front keeps the removal one position further on. */
  lemma DropsFirstAtCons<T>(y: T, xs: seq<T>, x: T, j: int, r: seq<T>)
    requires y != x && DropsFirstAt(xs, x, j, r)
    ensures DropsFirstAt([y] + xs, x, j + 1, [y] + r)
  {
    var ys := [y] + xs;
    assert ys[..j + 1] == [y] + xs[..j];
    assert ys[j + 2..] == xs[j + 1..];
  }
}
