/** The order of node ids, and least elements of finite sets under a strict order. */
module NodeOrder {
  import opened Model

  /** Lexicographic order of ids. */
  predicate Less(a: NodeId, b: NodeId) {
    b != [] && (a == [] || a[0] < b[0] || (a[0] == b[0] && Less(a[1..], b[1..])))
  }

  /** `a` runs out, or has the lower character, where the two first differ. */
  predicate DiffersAt(a: NodeId, b: NodeId, k: nat) {
    k <= |a| && k < |b| && a[..k] == b[..k] && (k == |a| || a[k] < b[k])
  }

  /** The order of ids is that of their first difference. */
  lemma {:induction false} LessIsLexicographic(a: NodeId, b: NodeId)
    ensures Less(a, b) <==> exists k: nat :: DiffersAt(a, b, k)
  {
    forall k: nat | DiffersAt(a, b, k) && k > 0 ensures a != [] && a[0] == b[0] {
      assert a[..k][0] == b[..k][0];
    }
    if b != [] && (a == [] || a[0] < b[0]) {
      assert DiffersAt(a, b, 0);
    } else if b != [] && a[0] == b[0] {
      LessIsLexicographic(a[1..], b[1..]);
      if Less(a, b) {
        var k: nat :| DiffersAt(a[1..], b[1..], k);
        assert a == [a[0]] + a[1..] && b == [a[0]] + b[1..];
        assert a[..k + 1] == [a[0]] + a[1..][..k] && b[..k + 1] == [a[0]] + b[1..][..k];
        assert DiffersAt(a, b, k + 1);
      }
      if k: nat :| DiffersAt(a, b, k) {
        assert k > 0;
        assert a[1..][..k - 1] == a[..k][1..] && b[1..][..k - 1] == b[..k][1..];
        assert DiffersAt(a[1..], b[1..], k - 1);
      }
    }
  }

  lemma {:induction false} LessTotal(a: NodeId, b: NodeId)
    ensures a == b ==> !Less(a, b)
    ensures a != b ==> Less(a, b) != Less(b, a)
  {
    if a != [] && b != [] && a[0] == b[0] {
      LessTotal(a[1..], b[1..]);
      assert a == [a[0]] + a[1..] && b == [b[0]] + b[1..];
    }
  }

  lemma {:induction false} LessTransitive(a: NodeId, b: NodeId, c: NodeId)
    requires Less(a, b) && Less(b, c)
    ensures Less(a, c)
  {
    if a != [] && a[0] == b[0] == c[0] {
      LessTransitive(a[1..], b[1..], c[1..]);
    }
  }

  /** `lt` compares any two different elements one way, and chains. */
  ghost predicate Orders<T(!new)>(s: set<T>, lt: (T, T) -> bool) {
    && (forall x, y :: x in s && y in s && x != y ==> lt(x, y) != lt(y, x))
    && (forall x, y, z :: x in s && y in s && z in s && lt(x, y) && lt(y, z) ==> lt(x, z))
    && (forall x :: x in s ==> !lt(x, x))
  }

  lemma {:induction false} LeastExists<T(!new)>(s: set<T>, lt: (T, T) -> bool)
    requires s != {} && Orders(s, lt)
    ensures exists x :: x in s && forall y :: y in s && y != x ==> lt(x, y)
    decreases |s|
  {
    var a :| a in s;
    var rest := s - {a};
    if exists y :: y in s && y != a {
      var y :| y in s && y != a;
      assert y in rest;
      LeastExists(rest, lt);
      var m :| m in rest && forall y :: y in rest && y != m ==> lt(m, y);
      var least := if lt(m, a) then m else a;
      forall y | y in s && y != least ensures lt(least, y) {
        if y != a && y != m {
          assert lt(m, y);
        }
      }
    }
  }
}
