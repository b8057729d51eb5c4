/** Models of the functions of Go's `strings` and `unicode` packages that the core calls:
    `HasPrefix`, `Contains`, `Join`, `Split(s, sep)[0]` and `TrimSpace`. */
module GoStrings {

  /** `strings.HasPrefix(s, prefix)`. */
  predicate HasPrefix(s: string, prefix: string) {
    |prefix| <= |s| && s[..|prefix|] == prefix
  }

  /** `sub` occurs in `s` starting at index `i`. */
  predicate OccursAt(s: string, sub: string, i: int) {
    0 <= i && i + |sub| <= |s| && s[i..i + |sub|] == sub
  }

  /** `strings.Contains(s, sub)`. */
  predicate OccursIn(sub: string, s: string) {
    exists i | 0 <= i <= |s| :: OccursAt(s, sub, i)
  }

  /** An occurrence in a suffix of `s` is an occurrence in `s`. */
  lemma OccursInSuffix(sub: string, s: string, k: nat)
    requires k <= |s|
    requires OccursIn(sub, s[k..])
    ensures OccursIn(sub, s)
  {
    var i :| 0 <= i <= |s[k..]| && OccursAt(s[k..], sub, i);
    assert s[k..][i..i + |sub|] == s[i + k..i + k + |sub|];
    assert OccursAt(s, sub, i + k);
  }

  /** An occurrence in `s` other than at its start is an occurrence in `s[1..]`. */
  lemma OccursInTail(sub: string, s: string, i: int)
    requires OccursAt(s, sub, i) && i > 0
    ensures OccursAt(s[1..], sub, i - 1)
  {
    assert s[1..][i - 1..i - 1 + |sub|] == s[i..i + |sub|];
  }

  /** A string whose first character does not occur in `s` does not occur in `s`. */
  lemma FirstCharAbsent(sub: string, s: string)
    requires |sub| > 0 && sub[0] !in s
    ensures !OccursIn(sub, s)
  {
    forall i | 0 <= i <= |s| && i + |sub| <= |s|
      ensures !OccursAt(s, sub, i)
    {
      assert s[i..i + |sub|][0] == s[i];
    }
  }

  /** `strings.Join(elems, sep)`. */
  function Join(elems: seq<string>, sep: string): (r: string)
    ensures |elems| == 1 ==> r == elems[0]
  {
    if |elems| == 0 then ""
    else if |elems| == 1 then elems[0]
    else elems[0] + sep + Join(elems[1..], sep)
  }

  /** A character that is in no element and not in the separator is not in the joined string. */
  lemma {:induction false} JoinAvoids(elems: seq<string>, sep: string, c: char)
    requires forall e :: e in elems ==> c !in e
    requires c !in sep
    ensures c !in Join(elems, sep)
  {
    if |elems| > 1 {
      JoinAvoids(elems[1..], sep, c);
      assert elems[0] in elems;
    }
  }

  /** `strings.Split(s, sep)[0]`: the part of `s` before the first occurrence of `sep`,
      or the whole of `s` when `sep` does not occur in it. */
  function CutBefore(s: string, sep: string): (r: string)
    requires |sep| > 0
    ensures HasPrefix(s, r)
    ensures forall i :: 0 <= i < |r| ==> !OccursAt(s, sep, i)
    ensures !OccursIn(sep, r)
    ensures r == s || OccursAt(s, sep, |r|)
    ensures !OccursIn(sep, s) ==> r == s
    decreases |s|
  {
    if |s| < |sep| then s
    else if s[..|sep|] == sep then []
    else
      var rest := CutBefore(s[1..], sep);
      CutBeforeStep(s, sep, rest);
      [s[0]] + rest
  }

  /** The inductive step of `CutBefore`: prepending the first character keeps every property. */
  lemma CutBeforeStep(s: string, sep: string, rest: string)
    requires |sep| > 0 && |s| >= |sep| && s[..|sep|] != sep
    requires HasPrefix(s[1..], rest)
    requires forall i :: 0 <= i < |rest| ==> !OccursAt(s[1..], sep, i)
    requires rest == s[1..] || OccursAt(s[1..], sep, |rest|)
    ensures HasPrefix(s, [s[0]] + rest)
    ensures forall i :: 0 <= i < |rest| + 1 ==> !OccursAt(s, sep, i)
    ensures !OccursIn(sep, [s[0]] + rest)
    ensures [s[0]] + rest == s || OccursAt(s, sep, |rest| + 1)
  {
    var r := [s[0]] + rest;
    assert r == s[..|r|];
    forall i | 0 <= i < |r| ensures !OccursAt(s, sep, i) {
      if i > 0 && OccursAt(s, sep, i) {
        OccursInTail(sep, s, i);
      }
    }
    if OccursIn(sep, r) {
      var i :| 0 <= i <= |r| && OccursAt(r, sep, i);
      assert r[i..i + |sep|] == s[i..i + |sep|];
      assert i < |r| && OccursAt(s, sep, i);
      assert false;
    }
    if rest != s[1..] {
      assert s[1..][|rest|..|rest| + |sep|] == s[|rest| + 1..|rest| + 1 + |sep|];
    }
  }

  /** `unicode.IsSpace`: the Unicode White_Space characters. */
  predicate IsSpace(c: char) {
    var n := c as int;
    (9 <= n <= 13) || n == 32 || n == 0x85 || n == 0xA0 || n == 0x1680
    || (0x2000 <= n <= 0x200A) || n == 0x2028 || n == 0x2029 || n == 0x202F
    || n == 0x205F || n == 0x3000
  }

  /** The index of the first character at or after `i` that is not white space, or `|s|`. */
  function SpaceEnd(s: string, i: nat): (k: nat)
    requires i <= |s|
    ensures i <= k <= |s|
    ensures forall j :: i <= j < k ==> IsSpace(s[j])
    ensures k < |s| ==> !IsSpace(s[k])
    decreases |s| - i
  {
    if i < |s| && IsSpace(s[i]) then SpaceEnd(s, i + 1) else i
  }

  /** The index just past the last character before `j`, and not before `lo`, that is not
      white space, or `lo`. */
  function SpaceStart(s: string, lo: nat, j: nat): (k: nat)
    requires lo <= j <= |s|
    ensures lo <= k <= j
    ensures forall m :: k <= m < j ==> IsSpace(s[m])
    ensures k > lo ==> !IsSpace(s[k - 1])
    decreases j - lo
  {
    if j > lo && IsSpace(s[j - 1]) then SpaceStart(s, lo, j - 1) else j
  }

  /** `r` occurs in `s` at index `i`, and everything in `s` before and after it is white space. */
  predicate SpaceAround(s: string, r: string, i: int) {
    && OccursAt(s, r, i)
    && (forall k :: 0 <= k < i ==> IsSpace(s[k]))
    && (forall k :: i + |r| <= k < |s| ==> IsSpace(s[k]))
  }

  /** `strings.TrimSpace(s)`: `s` without leading and trailing white space; what is kept is
      one contiguous piece of `s` and everything cut off on either side is white space. */
  function TrimSpace(s: string): (r: string)
    ensures r == [] || (!IsSpace(r[0]) && !IsSpace(r[|r| - 1]))
    ensures exists i | 0 <= i <= |s| :: SpaceAround(s, r, i)
    ensures (s == [] || (!IsSpace(s[0]) && !IsSpace(s[|s| - 1]))) ==> r == s
  {
    var i := SpaceEnd(s, 0);
    var j := SpaceStart(s, i, |s|);
    assert i < j ==> s[i..j][0] == s[i] && s[i..j][j - i - 1] == s[j - 1];
    assert SpaceAround(s, s[i..j], i);
    s[i..j]
  }
}
