/** The term matcher: the regular expression `strings.Join(termList, "|")` and its
    `FindAllString(line, -1)`. The model covers term lists of literal words: every term is
    non-empty and free of RE2 metacharacters, so the alternation always compiles and an
    alternative matches exactly its own text. Go's regexp is leftmost-first: the leftmost
    position where some term matches wins, and there the earliest term of the list; the
    search then resumes after the match. */
module TermRegex {
  import opened Wrappers
  import opened GoStrings

  /** The characters `regexp.QuoteMeta` escapes. */
  predicate IsMeta(c: char) {
    c in "\\.+*?()|[]{}^$"
  }

  predicate LiteralTerm(t: string) {
    |t| > 0 && forall i :: 0 <= i < |t| ==> !IsMeta(t[i])
  }

  /** A term list whose alternation compiles and means "one of these words". */
  predicate LiteralTerms(terms: seq<string>) {
    |terms| > 0 && forall k :: 0 <= k < |terms| ==> LiteralTerm(terms[k])
  }

  /** Index of the earliest term of the list that matches at the start of `text`,
      searching from index `from` on. */
  function FirstTermAt(terms: seq<string>, text: string, from: nat := 0): (r: Option<nat>)
    requires from <= |terms|
    ensures r.Some? ==> from <= r.value < |terms| && HasPrefix(text, terms[r.value])
                        && forall j :: from <= j < r.value ==> !HasPrefix(text, terms[j])
    ensures r.None? ==> forall j :: from <= j < |terms| ==> !HasPrefix(text, terms[j])
    decreases |terms| - from
  {
    if from == |terms| then None
    else if HasPrefix(text, terms[from]) then Some(from)
    else FirstTermAt(terms, text, from + 1)
  }

  /** `re.FindAllString(line, -1)`: the successive leftmost-first, non-overlapping matches. */
  function FindAll(terms: seq<string>, line: string): (r: seq<string>)
    requires LiteralTerms(terms)
    ensures forall m :: m in r ==> m in terms && OccursIn(m, line)
    decreases |line|
  {
    if line == [] then []
    else
      match FirstTermAt(terms, line)
      case Some(k) =>
        var t := terms[k];
        assert LiteralTerm(t);
        var rest := FindAll(terms, line[|t|..]);
        assert OccursAt(line, t, 0);
        assert forall m :: m in rest ==> OccursIn(m, line) by {
          forall m | m in rest ensures OccursIn(m, line) {
            OccursInSuffix(m, line, |t|);
          }
        }
        [t] + rest
      case None =>
        var rest := FindAll(terms, line[1..]);
        assert forall m :: m in rest ==> OccursIn(m, line) by {
          forall m | m in rest ensures OccursIn(m, line) {
            OccursInSuffix(m, line, 1);
          }
        }
        rest
  }

  /** Some term occurs in `line`. */
  predicate ContainsTerm(terms: seq<string>, line: string) {
    exists t :: t in terms && OccursIn(t, line)
  }

  /** The matcher finds something exactly when some term occurs in the line. */
  lemma {:induction false} FindAllNonEmpty(terms: seq<string>, line: string)
    requires LiteralTerms(terms)
    ensures FindAll(terms, line) != [] <==> ContainsTerm(terms, line)
    decreases |line|
  {
    var r := FindAll(terms, line);
    if r != [] {
      assert r[0] in r;
    } else if ContainsTerm(terms, line) {
      var t :| t in terms && OccursIn(t, line);
      var i :| 0 <= i <= |line| && OccursAt(line, t, i);
      var k :| 0 <= k < |terms| && terms[k] == t;
      assert LiteralTerm(t);
      assert FirstTermAt(terms, line).None?;
      assert i > 0;
      OccursInTail(t, line, i);
      assert OccursIn(t, line[1..]);
      FindAllNonEmpty(terms, line[1..]);
      assert false;
    }
  }

  /** A line without any term yields no match. */
  lemma FindAllNoTerm(terms: seq<string>, line: string)
    requires LiteralTerms(terms)
    requires forall t :: t in terms ==> !OccursIn(t, line)
    ensures FindAll(terms, line) == []
  {
    FindAllNonEmpty(terms, line);
  }

  /** A line that starts with a term whose rest contains no term yields exactly that term,
      provided no earlier term of the list also matches at the start. */
  lemma FindAllSingle(terms: seq<string>, line: string, k: nat)
    requires LiteralTerms(terms) && k < |terms|
    requires HasPrefix(line, terms[k])
    requires forall j :: 0 <= j < k ==> !HasPrefix(line, terms[j])
    requires forall t :: t in terms ==> !OccursIn(t, line[|terms[k]|..])
    ensures FindAll(terms, line) == [terms[k]]
  {
    var t := terms[k];
    assert LiteralTerm(t);
    assert FirstTermAt(terms, line) == Some(k);
    FindAllNoTerm(terms, line[|t|..]);
  }
}
