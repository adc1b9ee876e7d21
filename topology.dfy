/** Index lists read as triangle lists, and what `Array.Reverse` does to them. */
module Topology {

  /** Three consecutive entries of an index list. */
  datatype Tri = Tri(a: int, b: int, c: int)

  /** The same triangle with its vertex order reversed (opposite winding). */
  function Flip(t: Tri): Tri { Tri(t.c, t.b, t.a) }

  /** The vertices a triangle uses, forgetting order. */
  function Corners(t: Tri): set<int> { {t.a, t.b, t.c} }

  function TriCount(s: seq<int>): nat { |s| / 3 }

  /** Triangle number t of an index list. */
  function TriAt(s: seq<int>, t: nat): Tri
    requires 3 * t + 2 < |s|
  {
    Tri(s[3 * t], s[3 * t + 1], s[3 * t + 2])
  }

  /** Every index addresses one of the first n vertices. */
  predicate IndicesBelow(s: seq<int>, n: int) {
    forall k :: 0 <= k < |s| ==> 0 <= s[k] < n
  }

  lemma IndicesBelowConcat(a: seq<int>, b: seq<int>, n: int)
    requires IndicesBelow(a, n) && IndicesBelow(b, n)
    ensures IndicesBelow(a + b, n)
  {
    forall k | 0 <= k < |a + b| ensures 0 <= (a + b)[k] < n {
      if k >= |a| { assert (a + b)[k] == b[k - |a|]; }
    }
  }

  /** Triangles of a concatenation come from the left part, then from the right part. */
  lemma TriAtConcat(a: seq<int>, b: seq<int>, t: nat)
    requires |a| % 3 == 0 && 3 * t + 2 < |a| + |b|
    ensures TriAt(a + b, t) == if t < |a| / 3 then TriAt(a, t) else TriAt(b, t - |a| / 3)
  {
    if t >= |a| / 3 {
      var u := t - |a| / 3;
      assert 3 * t - |a| == 3 * u;
    }
  }

  /** The set of triangles of a list, each taken as the set of its corners. */
  function Faces(s: seq<int>): set<set<int>>
    requires |s| % 3 == 0
  {
    set t: nat | t < |s| / 3 :: Corners(TriAt(s, t))
  }

  /** `Array.Reverse`: the list read back to front. */
  function Reversed(s: seq<int>): (r: seq<int>)
    ensures |r| == |s|
  {
    seq(|s|, k requires 0 <= k < |s| => s[|s| - 1 - k])
  }

  /** Reversing a list whose length is a multiple of three turns triangle t into
      triangle T - 1 - t read backwards: the winding of every triangle flips. */
  lemma ReversedTriangle(s: seq<int>, t: nat)
    requires |s| % 3 == 0 && t < |s| / 3
    ensures |Reversed(s)| == |s|
    ensures TriAt(Reversed(s), t) == Flip(TriAt(s, |s| / 3 - 1 - t))
  {
    var n := |s| / 3;
    assert |s| == 3 * n;
    var u := n - 1 - t;
    assert |s| - 1 - 3 * t == 3 * u + 2;
    assert |s| - 1 - (3 * t + 1) == 3 * u + 1;
    assert |s| - 1 - (3 * t + 2) == 3 * u;
  }

  /** Reversal keeps the set of triangles: only their orientation changes. */
  lemma ReversedKeepsFaces(s: seq<int>)
    requires |s| % 3 == 0
    ensures |Reversed(s)| % 3 == 0
    ensures Faces(Reversed(s)) == Faces(s)
  {
    var r := Reversed(s);
    var n := |s| / 3;
    forall f | f in Faces(r) ensures f in Faces(s) {
      var t: nat :| t < n && f == Corners(TriAt(r, t));
      ReversedTriangle(s, t);
      var u: nat := n - 1 - t;
      assert f == Corners(TriAt(s, u));
    }
    forall f | f in Faces(s) ensures f in Faces(r) {
      var u: nat :| u < n && f == Corners(TriAt(s, u));
      var t: nat := n - 1 - u;
      ReversedTriangle(s, t);
      assert f == Corners(TriAt(r, t));
    }
  }

  /** Reversal keeps every index, so it keeps index bounds. */
  lemma ReversedIndicesBelow(s: seq<int>, n: int)
    requires IndicesBelow(s, n)
    ensures IndicesBelow(Reversed(s), n)
  {
    forall k | 0 <= k < |s| ensures 0 <= Reversed(s)[k] < n {
      assert Reversed(s)[k] == s[|s| - 1 - k];
    }
  }

  /** Reversal is an involution. */
  lemma ReversedTwice(s: seq<int>)
    ensures Reversed(Reversed(s)) == s
  {
  }

  /** Euclidean division is unique: the quotient and remainder of y * m + x are y and x. */
  lemma DivModOf(c: int, m: int, y: int, x: int)
    requires 0 <= x < m && c == y * m + x
    ensures c / m == y && c % m == x
  {
    var q, r := c / m, c % m;
    var d := q - y;
    assert d * m == x - r by { assert c == q * m + r; }
    if d > 0 { AtLeastDivisor(d, m); }
    else if d < 0 { AtLeastDivisor(-d, m); }
  }

  lemma AtLeastDivisor(d: int, m: int)
    requires d >= 1 && m > 0
    ensures d * m >= m
  {
    assert d * m == (d - 1) * m + m;
  }

  lemma MulLeRight(a: int, b: int, c: nat)
    requires a <= b
    ensures a * c <= b * c
  {
    assert b * c - a * c == (b - a) * c;
  }
}
