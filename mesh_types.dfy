/**
 * The small value types the mesh header declares: a triangle of three
 * unsigned vertex indices, and an undirected edge kept as its two vertex
 * indices in canonical (sorted) order, with equality and a hash.
 *
 * `unsigned int` is 32 bits wide and `size_t` 64 bits wide.
 */
module MeshTypes {

  /** unsigned int */
  newtype Index = x: int | 0 <= x < 0x1_0000_0000

  /** A triangle: three vertex indices, in the order given. */
  datatype Triangle = Triangle(v0: Index, v1: Index, v2: Index)

  /** The vertex indices of a triangle, in their stored order. */
  function TriangleIndices(t: Triangle): (r: seq<Index>)
    ensures |r| == 3 && r[0] == t.v0 && r[1] == t.v1 && r[2] == t.v2
  {
    [t.v0, t.v1, t.v2]
  }

  /** An edge's stored pair: the two vertex indices. */
  datatype Edge = Edge(v0: Index, v1: Index)

  /** An edge whose stored pair is in non-decreasing order. */
  predicate Canonical(e: Edge) {
    e.v0 <= e.v1
  }

  /** The edge constructor: stores the two indices smaller first. */
  function MakeEdge(a: Index, b: Index): (e: Edge)
    ensures Canonical(e)
    ensures (e.v0 == a && e.v1 == b) || (e.v0 == b && e.v1 == a)
  {
    if a <= b then Edge(a, b) else Edge(b, a)
  }

  /** operator==: component-wise on the stored pair. */
  predicate EdgeEquals(e1: Edge, e2: Edge) {
    e1.v0 == e2.v0 && e1.v1 == e2.v1
  }

  /**
   * EdgeHashFunction: the first index times 0x1f1f1f1f, with 32-bit
   * wrap-around, xor the second, widened to size_t.
   */
  function EdgeHash(e: Edge): (h: bv64)
    ensures h < 0x1_0000_0000
  {
    (((e.v0 as bv32) * 0x1f1f1f1f) ^ (e.v1 as bv32)) as bv64
  }

  /** Building an edge does not depend on the order of its endpoints. */
  lemma MakeEdgeSymmetric(a: Index, b: Index)
    ensures EdgeEquals(MakeEdge(a, b), MakeEdge(b, a))
  {
  }

  /** Two built edges are equal exactly when they join the same unordered pair of vertices. */
  lemma MakeEdgeEqualsIff(a: Index, b: Index, c: Index, d: Index)
    ensures EdgeEquals(MakeEdge(a, b), MakeEdge(c, d)) <==>
      ((a == c && b == d) || (a == d && b == c))
  {
  }

  /** Equal edges hash alike, so an edge-keyed hash table finds an edge under either endpoint order. */
  lemma EqualEdgesHashAlike(e1: Edge, e2: Edge)
    requires EdgeEquals(e1, e2)
    ensures EdgeHash(e1) == EdgeHash(e2)
  {
  }

  /** The hash of an edge does not depend on the order of its endpoints. */
  lemma EdgeHashSymmetric(a: Index, b: Index)
    ensures EdgeHash(MakeEdge(a, b)) == EdgeHash(MakeEdge(b, a))
  {
    MakeEdgeSymmetric(a, b);
    EqualEdgesHashAlike(MakeEdge(a, b), MakeEdge(b, a));
  }

  /** Canonicalisation is idempotent: rebuilding an edge from its stored pair gives it back. */
  lemma MakeEdgeIdempotent(a: Index, b: Index)
    ensures var e := MakeEdge(a, b); MakeEdge(e.v0, e.v1) == e
  {
  }

  /** Edge equality is an equivalence. */
  lemma EdgeEqualsIsEquivalence(e1: Edge, e2: Edge, e3: Edge)
    ensures EdgeEquals(e1, e1)
    ensures EdgeEquals(e1, e2) ==> EdgeEquals(e2, e1)
    ensures EdgeEquals(e1, e2) && EdgeEquals(e2, e3) ==> EdgeEquals(e1, e3)
  {
  }
}
