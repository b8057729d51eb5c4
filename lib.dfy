/** pkg/lib: membership in a string set and order-preserving removal of duplicates. */
module Lib {

  /** Go's `map[string]struct{}` used as a set of strings. */
  type StringSet = map<string, ()>

  /** `Contains(set, item)`: whether `item` is a key of the set. */
  function Contains(s: StringSet, item: string): (b: bool)
    ensures b <==> item in s.Keys
  {
    item in s
  }

  predicate NoDuplicates(s: seq<string>) {
    forall i, j :: 0 <= i < j < |s| ==> s[i] != s[j]
  }

  /** Index of the first occurrence of `x` in `s`. */
  function IndexOf(s: seq<string>, x: string): (k: nat)
    requires x in s
    ensures k < |s| && s[k] == x
    ensures forall j :: 0 <= j < k ==> s[j] != x
  {
    if s[0] == x then 0 else 1 + IndexOf(s[1..], x)
  }

  /** The specification of `Unique`: `s` with every element that already occurred earlier
      dropped, element by element from the front (written here by peeling off the last element). */
  function Dedup(s: seq<string>): (r: seq<string>)
    ensures |r| <= |s|
    ensures forall x :: x in r <==> x in s
    ensures NoDuplicates(r)
    decreases |s|
  {
    if s == [] then []
    else
      var init, last := s[..|s| - 1], s[|s| - 1];
      var r := Dedup(init);
      assert forall x :: x in s <==> x in init || x == last;
      if last in init then r else r + [last]
  }

  /** `Unique(slice)`: copies `slice`, skipping every element already recorded in a seen-set. */
  method Unique(slice: seq<string>) returns (res: seq<string>)
    ensures res == Dedup(slice)
    ensures NoDuplicates(res)
    ensures forall x :: x in res <==> x in slice
  {
    var seen: StringSet := map[];
    res := [];
    for i := 0 to |slice|
      invariant res == Dedup(slice[..i])
      invariant forall x :: x in seen <==> x in slice[..i]
    {
      var s := slice[i];
      assert slice[..i + 1][..i] == slice[..i];
      if Contains(seen, s) {
        continue;
      }
      res := res + [s];
      seen := seen[s := ()];
    }
    assert slice[..|slice|] == slice;
  }

  /** Dedup of the empty sequence is empty. */
  lemma DedupEmpty()
    ensures Dedup([]) == []
  {
  }

  /** Dedup keeps the elements in the order of their first occurrence in the input. */
  lemma {:induction false} DedupFirstOccurrenceOrder(s: seq<string>)
    ensures forall i, j :: 0 <= i < j < |Dedup(s)| ==> IndexOf(s, Dedup(s)[i]) < IndexOf(s, Dedup(s)[j])
    decreases |s|
  {
    if s != [] {
      var init, last := s[..|s| - 1], s[|s| - 1];
      DedupFirstOccurrenceOrder(init);
      var r := Dedup(init);
      forall x | x in init ensures IndexOf(s, x) == IndexOf(init, x) {
        IndexOfPrefix(init, [last], x);
        assert init + [last] == s;
      }
      if last !in init {
        var k := IndexOf(s, last);
        assert k == |s| - 1;
      }
    }
  }

  lemma {:induction false} IndexOfPrefix(a: seq<string>, b: seq<string>, x: string)
    requires x in a
    ensures x in a + b && IndexOf(a + b, x) == IndexOf(a, x)
    decreases |a|
  {
    if a[0] != x {
      assert (a + b)[1..] == a[1..] + b;
      IndexOfPrefix(a[1..], b, x);
    }
  }

  /** A sequence without duplicates is its own Dedup. */
  lemma {:induction false} DedupOfNoDuplicates(s: seq<string>)
    requires NoDuplicates(s)
    ensures Dedup(s) == s
    decreases |s|
  {
    if s != [] {
      var init := s[..|s| - 1];
      assert NoDuplicates(init);
      DedupOfNoDuplicates(init);
      assert s[|s| - 1] !in init;
      assert init + [s[|s| - 1]] == s;
    }
  }

  /** Dedup is strictly shorter than a sequence that has a duplicate. */
  lemma {:induction false} DedupShorterWithDuplicates(s: seq<string>)
    requires !NoDuplicates(s)
    ensures |Dedup(s)| < |s|
    decreases |s|
  {
    var init, last := s[..|s| - 1], s[|s| - 1];
    if last !in init {
      if NoDuplicates(init) {
        forall i, j | 0 <= i < j < |s| ensures s[i] != s[j] {
          if j == |s| - 1 {
            assert s[i] == init[i];
          } else {
            assert s[i] == init[i] && s[j] == init[j];
          }
        }
        assert false;
      }
      DedupShorterWithDuplicates(init);
    }
  }

  /** `|Unique(s)| == |s|` exactly when `s` has no duplicates. */
  lemma DedupLength(s: seq<string>)
    ensures |Dedup(s)| <= |s|
    ensures |Dedup(s)| == |s| <==> NoDuplicates(s)
  {
    if NoDuplicates(s) {
      DedupOfNoDuplicates(s);
    } else {
      DedupShorterWithDuplicates(s);
    }
  }

  /** Removing duplicates twice is removing them once. */
  lemma DedupIdempotent(s: seq<string>)
    ensures Dedup(Dedup(s)) == Dedup(s)
  {
    DedupOfNoDuplicates(Dedup(s));
  }
}
