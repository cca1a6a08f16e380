/** The list idioms the modals share: `xs.filter(y => y !== x)`, used to
    remove a skill, and the toggle `xs.includes(x) ? xs.filter(y => y !== x)
    : [...xs, x]`, used for the SDG checkboxes of the project form and for
    the participant and resource selections of the project details. */
module Selection {
  predicate NoDup<T(==,!new)>(xs: seq<T>) {
    forall i, j | 0 <= i < j < |xs| :: xs[i] != xs[j]
  }

  /** `xs.filter(y => y !== x)`: every entry equal to `x` goes, the others
      stay. */
  function Remove<T(==,!new)>(xs: seq<T>, x: T): (r: seq<T>)
    ensures x !in r
    ensures forall y | y != x :: (y in r <==> y in xs)
    ensures |r| <= |xs|
  {
    if xs == [] then []
    else
      var rest := Remove(xs[1..], x);
      assert forall y :: y in xs <==> y == xs[0] || y in xs[1..];
      if xs[0] == x then rest else [xs[0]] + rest
  }

  /** A list without `x` comes back unchanged. */
  lemma {:induction false} RemoveAbsent<T(!new)>(xs: seq<T>, x: T)
    requires x !in xs
    ensures Remove(xs, x) == xs
  {
    if xs != [] {
      assert x !in xs[1..];
      RemoveAbsent(xs[1..], x);
      assert xs == [xs[0]] + xs[1..];
    }
  }

  /** Filtering works piece by piece, so the entries that stay keep their
      order. */
  lemma {:induction false} RemoveAppend<T(!new)>(a: seq<T>, b: seq<T>, x: T)
    ensures Remove(a + b, x) == Remove(a, x) + Remove(b, x)
  {
    if a == [] {
      assert a + b == b;
    } else {
      assert (a + b)[0] == a[0];
      assert (a + b)[1..] == a[1..] + b;
      RemoveAppend(a[1..], b, x);
    }
  }

  /** Filtering keeps a list free of duplicates. */
  lemma {:induction false} RemoveNoDup<T(!new)>(xs: seq<T>, x: T)
    requires NoDup(xs)
    ensures NoDup(Remove(xs, x))
  {
    if xs != [] {
      var rest := xs[1..];
      assert NoDup(rest) by {
        forall i, j | 0 <= i < j < |rest| ensures rest[i] != rest[j] {
          assert rest[i] == xs[i + 1] && rest[j] == xs[j + 1];
        }
      }
      RemoveNoDup(rest, x);
      if xs[0] != x {
        var r := Remove(rest, x);
        assert xs[0] !in rest by {
          forall k | 0 <= k < |rest| ensures rest[k] != xs[0] {
            assert rest[k] == xs[k + 1];
          }
        }
        assert xs[0] !in r;
        var s := [xs[0]] + r;
        forall i, j | 0 <= i < j < |s| ensures s[i] != s[j] {
          if i == 0 {
            assert s[j] == r[j - 1];
          } else {
            assert s[i] == r[i - 1] && s[j] == r[j - 1];
          }
        }
      }
    }
  }

  /** The checkbox toggle: a present entry is filtered out, an absent one
      is appended at the end. */
  function Toggle<T(==,!new)>(xs: seq<T>, x: T): (r: seq<T>)
    ensures x in r <==> x !in xs
    ensures forall y | y != x :: (y in r <==> y in xs)
  {
    if x in xs then Remove(xs, x) else xs + [x]
  }

  /** Toggling keeps a list free of duplicates. */
  lemma ToggleNoDup<T(!new)>(xs: seq<T>, x: T)
    requires NoDup(xs)
    ensures NoDup(Toggle(xs, x))
  {
    if x in xs {
      RemoveNoDup(xs, x);
    } else {
      var r := xs + [x];
      forall i, j | 0 <= i < j < |r| ensures r[i] != r[j] {
        if j == |xs| {
          assert r[i] == xs[i];
        }
      }
    }
  }

  /** Toggling an entry twice restores the list when the entry was absent;
      when it was present, the entries are the same afterwards but the
      toggled one has moved to the end. */
  lemma ToggleTwice<T(!new)>(xs: seq<T>, x: T)
    ensures x !in xs ==> Toggle(Toggle(xs, x), x) == xs
    ensures x in xs ==> Toggle(Toggle(xs, x), x) == Remove(xs, x) + [x]
    ensures forall y :: y in Toggle(Toggle(xs, x), x) <==> y in xs
  {
    if x !in xs {
      RemoveAppend(xs, [x], x);
      RemoveAbsent(xs, x);
      assert Remove([x], x) == [];
    }
  }

  /** The smallest list whose order a double toggle changes. */
  lemma ToggleTwiceReorders()
    ensures Toggle(Toggle([1, 2], 1), 1) == [2, 1]
  {
    assert 1 in [1, 2];
    ToggleTwice([1, 2], 1);
    assert Remove([1, 2], 1) == Remove([2], 1);
    assert Remove([2], 1) == [2] + Remove([], 1);
  }
}
