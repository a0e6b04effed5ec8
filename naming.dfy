/**
 * The "first free name" rule of the editor: a name already taken is
 * replaced by name_1, name_2, ... — the first of those not taken.
 */
module Naming {
  import opened Strings

  function Suffixed(base: string, n: nat): string
  {
    base + "_" + NatToString(n)
  }

  lemma SuffixedInjective(base: string, m: nat, n: nat)
    ensures Suffixed(base, m) == Suffixed(base, n) ==> m == n
  {
    if Suffixed(base, m) == Suffixed(base, n) {
      assert NatToString(m) == Suffixed(base, m)[|base| + 1..];
      assert NatToString(n) == Suffixed(base, n)[|base| + 1..];
      NatToStringInjective(m, n);
    }
  }

  /** The name the renaming loop settles on, stated without the loop. */
  ghost predicate IsFirstFree(taken: set<string>, orig: string, name: string)
  {
    if orig !in taken then name == orig
    else exists n: nat {:trigger Suffixed(orig, n)} ::
      1 <= n && name == Suffixed(orig, n) && name !in taken
      && forall k: nat {:trigger Suffixed(orig, k)} :: 1 <= k < n ==> Suffixed(orig, k) in taken
  }

  /** The rule picks one name: two names both satisfying it are equal. */
  lemma FirstFreeIsUnique(taken: set<string>, orig: string, a: string, b: string)
    requires IsFirstFree(taken, orig, a) && IsFirstFree(taken, orig, b)
    ensures a == b
  {
    if orig in taken {
      var m: nat :| 1 <= m && a == Suffixed(orig, m) && a !in taken
        && forall k: nat {:trigger Suffixed(orig, k)} :: 1 <= k < m ==> Suffixed(orig, k) in taken;
      var n: nat :| 1 <= n && b == Suffixed(orig, n) && b !in taken
        && forall k: nat {:trigger Suffixed(orig, k)} :: 1 <= k < n ==> Suffixed(orig, k) in taken;
      assert m < n ==> Suffixed(orig, m) in taken;
      assert n < m ==> Suffixed(orig, n) in taken;
    }
  }

  /**
   * The counter loop: keep the name when it is free, otherwise try
   * orig_1, orig_2, ... until one is not taken. It stops because the
   * candidates are pairwise distinct and only finitely many are taken.
   */
  method UniqueName(taken: set<string>, orig: string) returns (name: string)
    ensures name !in taken
    ensures IsFirstFree(taken, orig, name)
  {
    if orig !in taken {
      return orig;
    }
    var counter: nat := 1;
    ghost var tried: set<string> := {};
    while Suffixed(orig, counter) in taken
      invariant 1 <= counter
      invariant tried <= taken
      invariant |tried| == counter - 1
      invariant forall k: nat {:trigger Suffixed(orig, k)} :: 1 <= k < counter ==> Suffixed(orig, k) in tried
      invariant forall t :: t in tried ==> exists k: nat {:trigger Suffixed(orig, k)} :: 1 <= k < counter && t == Suffixed(orig, k)
      decreases |taken| - |tried|
    {
      ghost var next := Suffixed(orig, counter);
      if next in tried {
        var k: nat :| 1 <= k < counter && next == Suffixed(orig, k);
        SuffixedInjective(orig, k, counter);
      }
      tried := tried + {next};
      counter := counter + 1;
      assert tried <= taken;
      CardLe(tried, taken);
    }
    name := Suffixed(orig, counter);
  }

  lemma CardLe<T>(a: set<T>, b: set<T>)
    requires a <= b
    ensures |a| <= |b|
  {
    var rest := b - a;
    assert b == a + rest;
  }
}
