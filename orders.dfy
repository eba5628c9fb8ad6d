/** Orderings used to sort group keys.

    A pandas `groupby` (with its default `sort=True`) returns its groups in
    ascending key order. The keys of the dashboard are day numbers, pairs of
    integers (hour and day of week, date and payment type), zone names and
    (borough, zone) pairs of names; Python compares strings code point by code
    point, which is what `StringLess` does with Dafny's `char` order. */
module Orders {

  /** `lt` is a strict total order: irreflexive, transitive, and any two
      different values are comparable. */
  ghost predicate StrictTotalOrder<K(!new)>(lt: (K, K) -> bool) {
    && (forall a :: !lt(a, a))
    && (forall a, b, c :: lt(a, b) && lt(b, c) ==> lt(a, c))
    && (forall a, b :: a != b ==> lt(a, b) || lt(b, a))
  }

  predicate IntLess(a: int, b: int) {
    a < b
  }

  /** Lexicographic order on pairs of integers. */
  predicate PairLess(a: (int, int), b: (int, int)) {
    a.0 < b.0 || (a.0 == b.0 && a.1 < b.1)
  }

  /** Python's `str` order: the first differing code point decides, and a
      proper prefix comes first. */
  predicate StringLess(a: string, b: string)
    ensures StringLess(a, b) <==> LexBelow(a, b)
  {
    LexBelowStep(a, b);
    if |a| == 0 then |b| > 0
    else if |b| == 0 then false
    else if a[0] != b[0] then a[0] < b[0]
    else StringLess(a[1..], b[1..])
  }

  /** Lexicographic order stated directly: `a` is a proper prefix of `b`, or
      at the first position where they differ `a` has the smaller character. */
  ghost predicate LexBelow(a: string, b: string) {
    || (|a| < |b| && a == b[..|a|])
    || (exists i :: 0 <= i < |a| && i < |b| && a[..i] == b[..i] && a[i] < b[i])
  }

  /** `LexBelow` decided by the first characters, as `StringLess` decides it. */
  lemma LexBelowStep(a: string, b: string)
    ensures LexBelow(a, b) <==>
      if |a| == 0 then |b| > 0
      else if |b| == 0 then false
      else if a[0] != b[0] then a[0] < b[0]
      else LexBelow(a[1..], b[1..])
  {
    if |a| == 0 {
      assert |b| > 0 ==> a == b[..0];
    } else if |b| == 0 {
    } else if a[0] != b[0] {
      if a[0] < b[0] {
        assert a[..0] == b[..0];
      }
      forall i | 0 < i < |a| && i < |b| ensures a[..i] != b[..i] {
        assert a[..i][0] == a[0] && b[..i][0] == b[0];
      }
      if |a| < |b| {
        assert b[..|a|][0] == b[0];
      }
    } else {
      var a', b' := a[1..], b[1..];
      assert a == [a[0]] + a' && b == [b[0]] + b';
      if |a| < |b| && a == b[..|a|] {
        assert a' == b'[..|a'|];
      }
      if |a'| < |b'| && a' == b'[..|a'|] {
        assert a == b[..|a|];
      }
      if i :| 0 <= i < |a| && i < |b| && a[..i] == b[..i] && a[i] < b[i] {
        assert i > 0;
        assert a'[..i - 1] == a[1..i] == b[1..i] == b'[..i - 1];
        assert a'[i - 1] < b'[i - 1];
      }
      if j :| 0 <= j < |a'| && j < |b'| && a'[..j] == b'[..j] && a'[j] < b'[j] {
        assert a[..j + 1] == [a[0]] + a'[..j] && b[..j + 1] == [b[0]] + b'[..j];
        assert a[j + 1] < b[j + 1];
      }
    }
  }

  /** Lexicographic order on pairs of strings, as pandas sorts a two-column key. */
  predicate StringPairLess(a: (string, string), b: (string, string)) {
    StringLess(a.0, b.0) || (a.0 == b.0 && StringLess(a.1, b.1))
  }

  lemma IntLessIsStrictTotalOrder()
    ensures StrictTotalOrder(IntLess)
  {
  }

  lemma PairLessIsStrictTotalOrder()
    ensures StrictTotalOrder(PairLess)
  {
  }

  lemma {:induction false} StringLessIrreflexive(a: string)
    ensures !StringLess(a, a)
  {
    if |a| > 0 {
      StringLessIrreflexive(a[1..]);
    }
  }

  lemma {:induction false} StringLessTransitive(a: string, b: string, c: string)
    requires StringLess(a, b) && StringLess(b, c)
    ensures StringLess(a, c)
  {
    if |a| > 0 && |b| > 0 && |c| > 0 && a[0] == b[0] && b[0] == c[0] {
      StringLessTransitive(a[1..], b[1..], c[1..]);
    }
  }

  lemma {:induction false} StringLessConnected(a: string, b: string)
    requires a != b
    ensures StringLess(a, b) || StringLess(b, a)
  {
    if |a| > 0 && |b| > 0 && a[0] == b[0] {
      assert a == [a[0]] + a[1..] && b == [b[0]] + b[1..];
      StringLessConnected(a[1..], b[1..]);
    }
  }

  lemma StringLessIsStrictTotalOrder()
    ensures StrictTotalOrder(StringLess)
  {
    forall a | true ensures !StringLess(a, a) {
      StringLessIrreflexive(a);
    }
    forall a, b, c | StringLess(a, b) && StringLess(b, c) ensures StringLess(a, c) {
      StringLessTransitive(a, b, c);
    }
    forall a, b | a != b ensures StringLess(a, b) || StringLess(b, a) {
      StringLessConnected(a, b);
    }
  }

  lemma StringPairLessIsStrictTotalOrder()
    ensures StrictTotalOrder(StringPairLess)
  {
    StringLessIsStrictTotalOrder();
  }
}
