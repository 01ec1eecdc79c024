/**
 * The checkbox toggle shared by both symptom checkers
 * (`prev.includes(x) ? prev.filter(v => v !== x) : [...prev, x]`).
 */
module Toggle {
  import opened JsBuiltins

  /** No value occurs twice. */
  predicate NoDup<T(==)>(s: seq<T>) {
    forall i, j :: 0 <= i < j < |s| ==> s[i] != s[j]
  }

  lemma {:induction false} WithoutKeepsNoDup<T(!new)>(s: seq<T>, x: T)
    ensures NoDup(s) ==> NoDup(Without(s, x))
  {
    if s != [] && NoDup(s) {
      assert NoDup(s[1..]);
      WithoutKeepsNoDup(s[1..], x);
      if s[0] != x {
        assert s[0] !in s[1..];
        var w := Without(s[1..], x);
        assert Without(s, x) == [s[0]] + w;
        assert s[0] !in w;
      }
    }
  }

  /**
   * The selection after toggling `x`: an absent value is appended at the end,
   * a present one is removed; the selection stays free of duplicates.
   */
  function Toggled<T(==,!new)>(s: seq<T>, x: T): (r: seq<T>)
    ensures x in r <==> x !in s
    ensures forall y :: y != x ==> (y in r <==> y in s)
    ensures x !in s ==> r == s + [x]
    ensures x in s ==> r == Without(s, x) && multiset(r) == multiset(s)[x := 0]
    ensures NoDup(s) ==> NoDup(r)
  {
    if x in s then
      WithoutKeepsNoDup(s, x);
      Without(s, x)
    else
      s + [x]
  }

  /** Deselecting a value removes it and keeps the others in their selection order. */
  lemma {:induction false} DeselectKeepsOrder<T(!new)>(a: seq<T>, x: T, b: seq<T>)
    requires x !in a && x !in b
    ensures Toggled(a + [x] + b, x) == a + b
  {
    WithoutConcat(a + [x], b, x);
    WithoutConcat(a, [x], x);
    WithoutSingleton(x, x);
  }

  /**
   * Toggling the same value twice restores which values are selected; on a
   * duplicate-free selection it restores the list itself exactly when the value
   * was absent or was the last one selected (otherwise it moves to the end).
   */
  lemma ToggleTwice<T(!new)>(s: seq<T>, x: T)
    ensures forall y :: y in Toggled(Toggled(s, x), x) <==> y in s
    ensures x !in s ==> Toggled(Toggled(s, x), x) == s
    ensures x in s ==> Toggled(Toggled(s, x), x) == Without(s, x) + [x]
    ensures NoDup(s) ==> (Toggled(Toggled(s, x), x) == s <==> x !in s || s[|s| - 1] == x)
  {
    if x !in s {
      WithoutAppended(s, x);
    } else if NoDup(s) && s[|s| - 1] == x {
      var p := s[..|s| - 1];
      assert s == p + [x];
      assert x !in p;
      WithoutAppended(p, x);
    }
  }
}
