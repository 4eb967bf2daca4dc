/** Lexicographic order on names, as the language sorts strings: by code point. */
module Orders {

  predicate StringLE(a: string, b: string) {
    a == "" || (b != "" && (if a[0] != b[0] then a[0] < b[0] else StringLE(a[1..], b[1..])))
  }

  lemma {:induction false} StringLEIsTotal(a: string, b: string)
    ensures StringLE(a, b) || StringLE(b, a)
  {
    if a != "" && b != "" && a[0] == b[0] { StringLEIsTotal(a[1..], b[1..]); }
  }

  lemma {:induction false} StringLEIsAntisymmetric(a: string, b: string)
    requires StringLE(a, b) && StringLE(b, a)
    ensures a == b
  {
    if a != "" {
      StringLEIsAntisymmetric(a[1..], b[1..]);
      assert a == [a[0]] + a[1..] && b == [b[0]] + b[1..];
    }
  }

  lemma {:induction false} StringLEIsTransitive(a: string, b: string, c: string)
    requires StringLE(a, b) && StringLE(b, c)
    ensures StringLE(a, c)
  {
    if a != "" && a[0] == b[0] == c[0] { StringLEIsTransitive(a[1..], b[1..], c[1..]); }
  }

  /** Up to the first difference the two agree, and there the first is the smaller or has ended. */
  predicate DiffersAt(a: string, b: string, k: nat) {
    k <= |a| && k <= |b| && a[..k] == b[..k] && (k == |a| || (k < |b| && a[k] < b[k]))
  }

  lemma {:induction false} StringLEMeans(a: string, b: string)
    ensures StringLE(a, b) <==> exists k: nat :: DiffersAt(a, b, k)
  {
    if a == "" {
      assert DiffersAt(a, b, 0);
    } else if b != "" && a[0] == b[0] {
      StringLEMeans(a[1..], b[1..]);
      if StringLE(a[1..], b[1..]) {
        var k: nat :| DiffersAt(a[1..], b[1..], k);
        assert a[..k + 1] == [a[0]] + a[1..][..k] && b[..k + 1] == [b[0]] + b[1..][..k];
        assert DiffersAt(a, b, k + 1);
      }
      if k: nat :| DiffersAt(a, b, k) {
        assert k > 0 && a[1..][..k - 1] == a[..k][1..] && b[1..][..k - 1] == b[..k][1..];
        assert DiffersAt(a[1..], b[1..], k - 1);
      }
    } else if b != "" {
      if a[0] < b[0] { assert DiffersAt(a, b, 0); }
      forall k: nat | DiffersAt(a, b, k) ensures a[0] < b[0] {
        if k > 0 { assert a[..k][0] == b[..k][0]; }
      }
    }
  }
}
