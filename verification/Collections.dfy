/** Finite sums, maxima and orders that the SQL of the store relies on. */
module Collections {
  import opened Model

  /** sum(...) over a set of rows, given as the map from row to its resources. */
  ghost function Total<K>(m: map<K, Resources>): Resources
    decreases |m|
  {
    if m == map[] then NOTHING
    else
      var k :| k in m;
      TotalShrinks(m, k);
      m[k].Plus(Total(m - {k}))
  }

  lemma TotalShrinks<K, V>(m: map<K, V>, k: K)
    requires k in m
    ensures |m - {k}| < |m|
  {
    assert (m - {k}).Keys == m.Keys - {k};
  }

  /** The sum does not depend on the order in which the rows are visited. */
  lemma {:induction false} TotalRemove<K>(m: map<K, Resources>, x: K)
    requires x in m
    ensures Total(m) == m[x].Plus(Total(m - {x}))
    decreases |m|
  {
    var k :| k in m && Total(m) == m[k].Plus(Total(m - {k}));
    if k != x {
      TotalShrinks(m, k);
      TotalShrinks(m, x);
      TotalRemove(m - {k}, x);
      TotalRemove(m - {x}, k);
      var rest := Total(m - {x} - {k});
      assert m - {k} - {x} == m - {x} - {k};
      assert Total(m) == m[k].Plus(m[x].Plus(rest));
      assert Total(m - {x}) == m[k].Plus(rest);
    }
  }

  lemma TotalAdd<K>(m: map<K, Resources>, x: K, r: Resources)
    requires x !in m
    ensures Total(m[x := r]) == Total(m).Plus(r)
  {
    TotalRemove(m[x := r], x);
    assert m[x := r] - {x} == m;
  }

  lemma {:induction false} TotalNotNegative<K>(m: map<K, Resources>)
    requires forall k :: k in m ==> NOTHING.AtMost(m[k])
    ensures NOTHING.AtMost(Total(m))
    decreases |m|
  {
    if m != map[] {
      var k :| k in m;
      TotalShrinks(m, k);
      TotalRemove(m, k);
      TotalNotNegative(m - {k});
      assert NOTHING.AtMost(m[k]);
    }
  }

  /** Fewer rows, each of non-negative size, never sum to more. */
  lemma {:induction false} TotalMonotone<K>(less: map<K, Resources>, more: map<K, Resources>)
    requires forall k :: k in less ==> k in more && less[k] == more[k]
    requires forall k :: k in more ==> NOTHING.AtMost(more[k])
    ensures Total(less).AtMost(Total(more))
    decreases |less|
  {
    if less != map[] {
      var k :| k in less;
      TotalShrinks(less, k);
      TotalRemove(less, k);
      TotalRemove(more, k);
      assert NOTHING.AtMost(more[k]);
      TotalMonotone(less - {k}, more - {k});
    } else {
      TotalNotNegative(more);
    }
  }

  /** coalesce(max(...), 0) over a set of rows, given as the map from row to its number. */
  ghost function MaxOf<K>(m: map<K, int>): int
    decreases |m|
  {
    if m == map[] then 0
    else
      var k :| k in m;
      TotalShrinks(m, k);
      var rest := m - {k};
      if rest == map[] || m[k] > MaxOf(rest) then m[k] else MaxOf(rest)
  }

  lemma {:induction false} MaxOfBound<K>(m: map<K, int>)
    ensures forall k :: k in m ==> m[k] <= MaxOf(m)
    ensures m == map[] || exists k :: k in m && m[k] == MaxOf(m)
    decreases |m|
  {
    if m != map[] {
      var k :| k in m && MaxOf(m) == (var rest := m - {k}; if rest == map[] || m[k] > MaxOf(rest) then m[k] else MaxOf(rest));
      var rest := m - {k};
      TotalShrinks(m, k);
      MaxOfBound(rest);
      assert forall x :: x in m ==> x == k || (x in rest && rest[x] == m[x]);
    }
  }

  /** The byte order of text, used by ORDER BY and by sort.Strings. */
  predicate Less(a: string, b: string) {
    if b == "" then false
    else if a == "" then true
    else a[0] < b[0] || (a[0] == b[0] && Less(a[1..], b[1..]))
  }

  /** It is the dictionary order: at the first place where they differ, the lesser text has the lesser
      character or has ended. */
  lemma {:induction false} LessIsDictionary(a: string, b: string)
    ensures Less(a, b) <==> exists i :: 0 <= i <= |a| && i < |b| && a[..i] == b[..i] && (i == |a| || a[i] < b[i])
  {
    if b == "" {
    } else if a == "" {
      assert a[..0] == b[..0];
    } else {
      LessIsDictionary(a[1..], b[1..]);
      if a[0] == b[0] && Less(a[1..], b[1..]) {
        var i :| 0 <= i <= |a[1..]| && i < |b[1..]| && a[1..][..i] == b[1..][..i] && (i == |a[1..]| || a[1..][i] < b[1..][i]);
        assert a[..i + 1] == [a[0]] + a[1..][..i] && b[..i + 1] == [b[0]] + b[1..][..i];
      }
      if i :| 0 <= i <= |a| && i < |b| && a[..i] == b[..i] && (i == |a| || a[i] < b[i]) {
        if i > 0 {
          assert a[..i][0] == b[..i][0];
          assert a[1..][..i - 1] == a[..i][1..] && b[1..][..i - 1] == b[..i][1..];
        }
      }
      if a[0] < b[0] { assert a[..0] == b[..0]; }
    }
  }

  lemma {:induction false} LessTotal(a: string, b: string)
    ensures Less(a, b) || a == b || Less(b, a)
    ensures !(Less(a, b) && Less(b, a))
  {
    if a != "" && b != "" {
      LessTotal(a[1..], b[1..]);
      if a[0] == b[0] && a[1..] == b[1..] {
        assert a == [a[0]] + a[1..] == b;
      }
    }
  }

  lemma {:induction false} LessTransitive(a: string, b: string, c: string)
    requires Less(a, b) && Less(b, c)
    ensures Less(a, c)
  {
    if a != "" && a[0] == b[0] && b[0] == c[0] {
      LessTransitive(a[1..], b[1..], c[1..]);
    }
  }
}
