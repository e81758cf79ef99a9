/**
 * Value types shared by the whole model: colours and vectors, matrices,
 * and the decimal rendering of instance ordinals.
 *
 * Floating-point values are modelled as reals. The model never computes with
 * them; it only stores, copies and compares them.
 */
module Values {

  datatype Option<T> = None | Some(value: T) {
    function GetOr(default: T): T {
      match this
      case Some(v) => v
      case None => default
    }
  }

  datatype Vec3 = Vec3(x: real, y: real, z: real)
  datatype Vec4 = Vec4(x: real, y: real, z: real, w: real)

  /** Three signed integer indices (GfVec3i), one triangle of a triangulation. */
  datatype Vec3i = Vec3i(i0: int, i1: int, i2: int)

  /** A 4x4 matrix (GfMatrix4d), by rows. Compared only for equality. */
  datatype Matrix4 = Matrix4(row0: Vec4, row1: Vec4, row2: Vec4, row3: Vec4)

  /** The uniform scale by `s` (GfMatrix4d(s) with 1 in the corner). */
  function Scale(s: real): (m: Matrix4)
    ensures m.row3 == Vec4(0.0, 0.0, 0.0, 1.0)
  {
    Matrix4(Vec4(s, 0.0, 0.0, 0.0), Vec4(0.0, s, 0.0, 0.0), Vec4(0.0, 0.0, s, 0.0), Vec4(0.0, 0.0, 0.0, 1.0))
  }

  const Identity: Matrix4 := Scale(1.0)

  /** The decimal digit character for `d`. */
  function Digit(d: nat): (c: char)
    requires d < 10
    ensures '0' <= c <= '9'
    ensures (c as int) - ('0' as int) == d
  {
    (d + '0' as int) as char
  }

  /** Decimal rendering of a non-negative integer, as std::to_string does it. */
  function NatToString(n: nat): (s: string)
    ensures |s| >= 1
    ensures n < 10 <==> |s| == 1
    ensures forall k :: 0 <= k < |s| ==> '0' <= s[k] <= '9'
    ensures s[|s| - 1] == Digit(n % 10)
    decreases n
  {
    if n < 10 then [Digit(n)] else NatToString(n / 10) + [Digit(n % 10)]
  }

  /** Different ordinals render as different strings. */
  lemma {:induction false} NatToStringInjective(a: nat, b: nat)
    requires NatToString(a) == NatToString(b)
    ensures a == b
    decreases a
  {
    var sa, sb := NatToString(a), NatToString(b);
    assert a % 10 == b % 10 by {
      assert Digit(a % 10) == sa[|sa| - 1] == sb[|sb| - 1] == Digit(b % 10);
    }
    if a >= 10 {
      assert b >= 10;
      assert sa[..|sa| - 1] == NatToString(a / 10);
      assert sb[..|sb| - 1] == NatToString(b / 10);
      NatToStringInjective(a / 10, b / 10);
    }
  }

  /** The name of instance `i` of the prototype called `id`: id + to_string(i). */
  function InstanceName(id: string, i: nat): (s: string)
    ensures |s| > |id| && s[..|id|] == id
  {
    id + NatToString(i)
  }

  /** Instance names of one prototype are pairwise distinct. */
  lemma InstanceNamesDistinct(id: string, i: nat, j: nat)
    requires i != j
    ensures InstanceName(id, i) != InstanceName(id, j)
  {
    if InstanceName(id, i) == InstanceName(id, j) {
      assert NatToString(i) == InstanceName(id, i)[|id|..];
      assert NatToString(j) == InstanceName(id, j)[|id|..];
      NatToStringInjective(i, j);
    }
  }

  /** The names id+"0" ... id+"(n-1)". */
  function InstanceNames(id: string, n: nat): (names: set<string>)
    decreases n
  {
    if n == 0 then {} else InstanceNames(id, n - 1) + {InstanceName(id, n - 1)}
  }

  /** Every ordinal below `n` names one of the first `n` instances. */
  lemma {:induction false} InstanceNameInRange(id: string, n: nat, i: nat)
    requires i < n
    ensures InstanceName(id, i) in InstanceNames(id, n)
    decreases n
  {
    if i < n - 1 {
      InstanceNameInRange(id, n - 1, i);
    }
  }

  /** An ordinal at or above `n` names no instance among the first `n`. */
  lemma {:induction false} InstanceNameOutsideRange(id: string, n: nat, j: nat)
    requires j >= n
    ensures InstanceName(id, j) !in InstanceNames(id, n)
    decreases n
  {
    if n > 0 {
      InstanceNamesDistinct(id, n - 1, j);
      InstanceNameOutsideRange(id, n - 1, j);
    }
  }
}
