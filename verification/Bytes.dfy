// Bytes, fixed-width integers and the byte-lexicographic order that both the
// embedded key-value store and a map keyed by strings iterate in.
module Bytes {
  type byte = x: int | 0 <= x < 256
  type u64 = x: int | 0 <= x < 0x1_0000_0000_0000_0000

  const U32_LIMIT := 0x1_0000_0000
  const U64_LIMIT := 0x1_0000_0000_0000_0000

  /** Unsigned 64-bit wrap-around. */
  function Wrap64(n: nat): (r: u64)
    ensures n < U64_LIMIT ==> r == n
  {
    n % U64_LIMIT
  }

  function Pow256(width: nat): (p: nat)
    ensures p > 0
  {
    if width == 0 then 1 else 256 * Pow256(width - 1)
  }

  lemma Pow256Widths()
    ensures Pow256(1) == 0x100
    ensures Pow256(2) == 0x1_0000
    ensures Pow256(4) == U32_LIMIT
    ensures Pow256(8) == U64_LIMIT
  {
    assert Pow256(2) == 256 * Pow256(1);
    assert Pow256(4) == 256 * (256 * Pow256(2));
    assert Pow256(6) == 256 * (256 * Pow256(4));
    assert Pow256(8) == 256 * (256 * Pow256(6));
  }

  /** Big-endian bytes of `n`, most significant first. */
  function ToBE(n: nat, width: nat): (s: seq<byte>)
    ensures |s| == width
  {
    if width == 0 then [] else ToBE(n / 256, width - 1) + [n % 256]
  }

  function FromBE(s: seq<byte>): (n: nat)
    ensures n < Pow256(|s|)
  {
    if s == [] then 0 else 256 * FromBE(s[..|s| - 1]) + s[|s| - 1]
  }

  lemma {:induction false} FromToBE(n: nat, width: nat)
    requires n < Pow256(width)
    ensures FromBE(ToBE(n, width)) == n
  {
    if width > 0 {
      FromToBE(n / 256, width - 1);
      assert ToBE(n, width)[..width - 1] == ToBE(n / 256, width - 1);
    }
  }

  lemma {:induction false} ToFromBE(s: seq<byte>)
    ensures ToBE(FromBE(s), |s|) == s
  {
    if s != [] {
      ToFromBE(s[..|s| - 1]);
      assert FromBE(s) / 256 == FromBE(s[..|s| - 1]) && FromBE(s) % 256 == s[|s| - 1];
    }
  }

  /** Little-endian bytes of `n`, least significant first. */
  function ToLE(n: nat, width: nat): (s: seq<byte>)
    ensures |s| == width
  {
    if width == 0 then [] else [n % 256] + ToLE(n / 256, width - 1)
  }

  function FromLE(s: seq<byte>): (n: nat)
    ensures n < Pow256(|s|)
  {
    if s == [] then 0 else s[0] + 256 * FromLE(s[1..])
  }

  lemma {:induction false} FromToLE(n: nat, width: nat)
    requires n < Pow256(width)
    ensures FromLE(ToLE(n, width)) == n
  {
    if width > 0 {
      FromToLE(n / 256, width - 1);
    }
  }

  lemma {:induction false} ToFromLE(s: seq<byte>)
    ensures ToLE(FromLE(s), |s|) == s
  {
    if s != [] {
      ToFromLE(s[1..]);
      assert FromLE(s) / 256 == FromLE(s[1..]) && FromLE(s) % 256 == s[0];
    }
  }

  // ---- byte-lexicographic order ------------------------------------------

  predicate LexLess(a: seq<byte>, b: seq<byte>) {
    b != [] && (a == [] || a[0] < b[0] || (a[0] == b[0] && LexLess(a[1..], b[1..])))
  }

  predicate LexLe(a: seq<byte>, b: seq<byte>) {
    a == b || LexLess(a, b)
  }

  lemma {:induction false} LexTotal(a: seq<byte>, b: seq<byte>)
    ensures a == b || LexLess(a, b) || LexLess(b, a)
  {
    if a != [] && b != [] && a[0] == b[0] {
      LexTotal(a[1..], b[1..]);
      assert a == [a[0]] + a[1..] && b == [b[0]] + b[1..];
    }
  }

  lemma {:induction false} LexAsymmetric(a: seq<byte>, b: seq<byte>)
    ensures !(LexLess(a, b) && LexLess(b, a))
  {
    if a != [] && b != [] {
      LexAsymmetric(a[1..], b[1..]);
    }
  }

  lemma {:induction false} LexTransitive(a: seq<byte>, b: seq<byte>, c: seq<byte>)
    requires LexLess(a, b) && LexLess(b, c)
    ensures LexLess(a, c)
  {
    if a != [] && a[0] == b[0] == c[0] {
      LexTransitive(a[1..], b[1..], c[1..]);
    }
  }

  lemma {:induction false} LexSnoc(a: seq<byte>, x: byte, b: seq<byte>, y: byte)
    requires |a| == |b|
    ensures LexLess(a + [x], b + [y]) <==> LexLess(a, b) || (a == b && x < y)
  {
    if a == [] {
    } else {
      LexSnoc(a[1..], x, b[1..], y);
      assert (a + [x])[1..] == a[1..] + [x] && (b + [y])[1..] == b[1..] + [y];
      assert a == [a[0]] + a[1..] && b == [b[0]] + b[1..];
    }
  }

  /** On equal-width keys the byte order is the numeric order. */
  lemma {:induction false} BigEndianOrder(a: seq<byte>, b: seq<byte>)
    requires |a| == |b|
    ensures LexLess(a, b) <==> FromBE(a) < FromBE(b)
    ensures a == b <==> FromBE(a) == FromBE(b)
  {
    if a == [] {
    } else {
      var n := |a| - 1;
      BigEndianOrder(a[..n], b[..n]);
      LexSnoc(a[..n], a[n], b[..n], b[n]);
      assert a == a[..n] + [a[n]] && b == b[..n] + [b[n]];
    }
  }

  predicate IsLexMin(k: seq<byte>, keys: set<seq<byte>>) {
    k in keys && forall other | other in keys :: LexLe(k, other)
  }

  predicate IsLexMax(k: seq<byte>, keys: set<seq<byte>>) {
    k in keys && forall other | other in keys :: LexLe(other, k)
  }

  lemma {:induction false} LexMinExists(keys: set<seq<byte>>)
    requires keys != {}
    ensures exists k :: IsLexMin(k, keys)
  {
    var x :| x in keys;
    if keys == {x} {
      assert IsLexMin(x, keys);
    } else {
      LexMinExists(keys - {x});
      var m :| IsLexMin(m, keys - {x});
      LexTotal(x, m);
      if LexLess(x, m) {
        forall other | other in keys
          ensures LexLe(x, other)
        {
          if other != x && other != m {
            assert other in keys - {x} && LexLe(m, other);
            LexTransitive(x, m, other);
          }
        }
        assert IsLexMin(x, keys);
      } else {
        assert IsLexMin(m, keys);
      }
    }
  }

  lemma {:induction false} LexMaxExists(keys: set<seq<byte>>)
    requires keys != {}
    ensures exists k :: IsLexMax(k, keys)
  {
    var x :| x in keys;
    if keys == {x} {
      assert IsLexMax(x, keys);
    } else {
      LexMaxExists(keys - {x});
      var m :| IsLexMax(m, keys - {x});
      LexTotal(x, m);
      if LexLess(m, x) {
        forall other | other in keys
          ensures LexLe(other, x)
        {
          if other != x && other != m {
            assert other in keys - {x} && LexLe(other, m);
            LexTransitive(other, m, x);
          }
        }
        assert IsLexMax(x, keys);
      } else {
        assert IsLexMax(m, keys);
      }
    }
  }

  lemma LexExtremesUnique(keys: set<seq<byte>>)
    ensures forall j, k :: IsLexMin(j, keys) && IsLexMin(k, keys) ==> j == k
    ensures forall j, k :: IsLexMax(j, keys) && IsLexMax(k, keys) ==> j == k
  {
    forall j, k | LexLe(j, k) && LexLe(k, j)
      ensures j == k
    {
      LexAsymmetric(j, k);
    }
  }

  /** The first key of an ordered iteration. */
  function LexMin(keys: set<seq<byte>>): (k: seq<byte>)
    requires keys != {}
    ensures IsLexMin(k, keys)
  {
    LexMinExists(keys);
    LexExtremesUnique(keys);
    var k :| k in keys && IsLexMin(k, keys);
    k
  }

  /** The last key of an ordered iteration. */
  function LexMax(keys: set<seq<byte>>): (k: seq<byte>)
    requires keys != {}
    ensures IsLexMax(k, keys)
  {
    LexMaxExists(keys);
    LexExtremesUnique(keys);
    var k :| k in keys && IsLexMax(k, keys);
    k
  }
}
