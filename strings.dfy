/**
 * The three functions of Go's `strings` package that the exporter relies on:
 * `Index` (first occurrence), `Contains` (used by the process probe) and
 * `Replace` with a count of 1 (used to mask the password in the startup log).
 * Strings are modelled as sequences of characters.
 */
module GoStrings {

  /** `sub` occurs in `s` starting at position `i`. */
  predicate OccursAt(s: string, sub: string, i: nat) {
    i + |sub| <= |s| && s[i..i + |sub|] == sub
  }

  /** `i` is the left-most position at which `sub` occurs in `s`. */
  ghost predicate FirstOccurrence(s: string, sub: string, i: nat) {
    OccursAt(s, sub, i) && forall j: nat :: j < i ==> !OccursAt(s, sub, j)
  }

  /** Shifting the text by one character shifts every occurrence by one. */
  lemma OccursAtTail(s: string, sub: string, j: nat)
    requires |s| > 0
    ensures OccursAt(s[1..], sub, j) <==> OccursAt(s, sub, j + 1)
  {
    if j + 1 + |sub| <= |s| {
      assert s[1..][j..j + |sub|] == s[j + 1..j + 1 + |sub|];
    }
  }

  /**
   * Go's `strings.Index`: the position of the first occurrence of `sub` in `s`,
   * or -1 when there is none. The empty string occurs at position 0.
   */
  function Index(s: string, sub: string): (r: int)
    ensures r >= 0 ==> FirstOccurrence(s, sub, r)
    ensures r < 0 ==> r == -1 && forall j: nat :: !OccursAt(s, sub, j)
    decreases |s|
  {
    if |s| < |sub| then -1
    else if s[..|sub|] == sub then 0
    else
      var k := Index(s[1..], sub);
      assert !OccursAt(s, sub, 0);
      assert forall j: nat :: OccursAt(s, sub, j) ==> j > 0 && OccursAt(s[1..], sub, j - 1) by {
        forall j: nat | OccursAt(s, sub, j) ensures j > 0 && OccursAt(s[1..], sub, j - 1) {
          OccursAtTail(s, sub, j - 1);
        }
      }
      if k < 0 then -1
      else
        OccursAtTail(s, sub, k);
        k + 1
  }

  /** Go's `strings.Contains`: `sub` occurs somewhere in `s`. */
  function Contains(s: string, sub: string): (b: bool)
    ensures b <==> exists i: nat :: OccursAt(s, sub, i)
  {
    Index(s, sub) >= 0
  }

  /** A witnessed occurrence makes `Contains` true. */
  lemma ContainsAt(s: string, sub: string, i: nat)
    requires OccursAt(s, sub, i)
    ensures Contains(s, sub)
  {
  }

  /** A string has at most one left-most occurrence of a pattern. */
  lemma FirstOccurrenceUnique(s: string, sub: string, i: nat, k: nat)
    requires FirstOccurrence(s, sub, i) && FirstOccurrence(s, sub, k)
    ensures i == k
  {
  }

  /**
   * Go's `strings.Replace(s, pat, rep, 1)`. When `pat == rep` Go returns `s`
   * untouched; when `pat` is empty it inserts `rep` once, in front of `s`;
   * otherwise it replaces the first occurrence of `pat`, if any.
   */
  function ReplaceFirst(s: string, pat: string, rep: string): (r: string)
    ensures (forall j: nat :: !OccursAt(s, pat, j)) ==> r == s
    ensures forall i: nat :: FirstOccurrence(s, pat, i) ==> r == s[..i] + rep + s[i + |pat|..]
  {
    if pat == rep then
      assert forall i: nat :: OccursAt(s, pat, i) ==> s[..i] + rep + s[i + |pat|..] == s by {
        forall i: nat | OccursAt(s, pat, i) ensures s[..i] + rep + s[i + |pat|..] == s {
          assert s == s[..i] + s[i..i + |pat|] + s[i + |pat|..];
        }
      }
      s
    else if pat == "" then
      assert FirstOccurrence(s, pat, 0);
      assert forall i: nat :: FirstOccurrence(s, pat, i) ==> i == 0 by {
        forall i: nat | FirstOccurrence(s, pat, i) ensures i == 0 {
          FirstOccurrenceUnique(s, pat, i, 0);
        }
      }
      assert s[..0] + rep + s[0..] == rep + s;
      rep + s
    else
      var i := Index(s, pat);
      assert forall k: nat :: FirstOccurrence(s, pat, k) ==> k == i by {
        forall k: nat | FirstOccurrence(s, pat, k) ensures k == i {
          FirstOccurrenceUnique(s, pat, k, i);
        }
      }
      if i < 0 then s else s[..i] + rep + s[i + |pat|..]
  }

  /** The replacement at a known first occurrence, given as the expected result `r`. */
  lemma ReplaceFirstAt(s: string, pat: string, rep: string, i: nat, r: string)
    requires FirstOccurrence(s, pat, i)
    requires r == s[..i] + rep + s[i + |pat|..]
    ensures ReplaceFirst(s, pat, rep) == r
  {
  }

  /** With an empty pattern, `Replace(s, "", rep, 1)` puts `rep` in front of `s`. */
  lemma ReplaceEmptyPattern(s: string, rep: string)
    ensures ReplaceFirst(s, "", rep) == rep + s
  {
    assert FirstOccurrence(s, "", 0);
    assert s[..0] + rep + s[0..] == rep + s;
  }

  /** Extending a text on the right does not move the first occurrence found in its prefix. */
  lemma {:induction false} FirstOccurrenceInPrefix(a: string, b: string, sub: string, i: nat)
    requires FirstOccurrence(a, sub, i)
    ensures FirstOccurrence(a + b, sub, i)
  {
    assert (a + b)[i..i + |sub|] == a[i..i + |sub|];
    forall j: nat | j < i ensures !OccursAt(a + b, sub, j) {
      assert !OccursAt(a, sub, j);
      assert (a + b)[j..j + |sub|] == a[j..j + |sub|];
    }
  }

  /**
   * When the pattern first occurs inside a prefix of the text, replacing it
   * in the whole text is replacing it in that prefix: the rest is untouched.
   */
  lemma {:induction false} ReplaceFirstInPrefix(a: string, b: string, pat: string, rep: string, i: nat)
    requires FirstOccurrence(a, pat, i)
    ensures ReplaceFirst(a + b, pat, rep) == ReplaceFirst(a, pat, rep) + b
  {
    FirstOccurrenceInPrefix(a, b, pat, i);
    SpliceInPrefix(a, b, rep, i, |pat|);
    ReplaceFirstAt(a, pat, rep, i, a[..i] + rep + a[i + |pat|..]);
    ReplaceFirstAt(a + b, pat, rep, i, (a[..i] + rep + a[i + |pat|..]) + b);
  }

  /** `ReplaceFirstInPrefix` for a text `s` and an expected result `r` given as equations. */
  lemma ReplaceFirstInPrefixAt(a: string, b: string, pat: string, rep: string, i: nat, s: string, r: string)
    requires FirstOccurrence(a, pat, i)
    requires s == a + b && r == a[..i] + rep + a[i + |pat|..] + b
    ensures ReplaceFirst(s, pat, rep) == r
  {
    ReplaceFirstInPrefix(a, b, pat, rep, i);
    ReplaceFirstAt(a, pat, rep, i, a[..i] + rep + a[i + |pat|..]);
  }

  /** Splicing inside a prefix commutes with appending the rest of the text. */
  lemma SpliceInPrefix(a: string, b: string, rep: string, i: nat, n: nat)
    requires i + n <= |a|
    ensures (a + b)[..i] + rep + (a + b)[i + n..] == (a[..i] + rep + a[i + n..]) + b
  {
    assert (a + b)[..i] == a[..i];
    assert (a + b)[i + n..] == a[i + n..] + b;
  }

  /** An occurrence inside a prefix of the text is an occurrence in the text. */
  lemma OccursInPrefix(a: string, b: string, sub: string, i: nat)
    requires OccursAt(a, sub, i)
    ensures OccursAt(a + b, sub, i)
  {
    assert (a + b)[i..i + |sub|] == a[i..i + |sub|];
  }

  /** An occurrence inside a suffix of the text is an occurrence in the text, shifted. */
  lemma OccursInSuffix(a: string, b: string, sub: string, i: nat)
    requires OccursAt(b, sub, i)
    ensures OccursAt(a + b, sub, |a| + i)
  {
    assert (a + b)[|a| + i..|a| + i + |sub|] == b[i..i + |sub|];
  }

  /** An occurrence after position `i + |pat|` survives splicing `rep` in place of `s[i..i + |pat|]`. */
  lemma {:induction false} OccursAfterSplice(s: string, pat: string, rep: string, i: nat, k: nat)
    requires OccursAt(s, pat, k) && i + |pat| <= k
    ensures OccursAt(s[..i] + rep + s[i + |pat|..], pat, k - |pat| + |rep|)
  {
    var head, tail := s[..i] + rep, s[i + |pat|..];
    var m := k - (i + |pat|);
    assert tail[m..m + |pat|] == s[k..k + |pat|];
    OccursInSuffix(head, tail, pat, m);
  }

  /**
   * When the pattern occurs at `j`, the replacement happens at the first
   * occurrence, which is at `j` or before it.
   */
  lemma ReplaceFirstNoLaterThan(s: string, pat: string, rep: string, j: nat)
    requires OccursAt(s, pat, j)
    ensures 0 <= Index(s, pat) <= j
    ensures ReplaceFirst(s, pat, rep) == s[..Index(s, pat)] + rep + s[Index(s, pat) + |pat|..]
  {
  }

  /**
   * Only the first occurrence is replaced: an occurrence of the pattern that
   * starts after the replaced one is still present, moved by the difference
   * in length between pattern and replacement.
   */
  lemma ReplaceKeepsLaterOccurrences(s: string, pat: string, rep: string, i: nat, k: nat)
    requires FirstOccurrence(s, pat, i)
    requires OccursAt(s, pat, k) && i + |pat| <= k
    ensures OccursAt(ReplaceFirst(s, pat, rep), pat, k - |pat| + |rep|)
  {
    ReplaceFirstAt(s, pat, rep, i, s[..i] + rep + s[i + |pat|..]);
    OccursAfterSplice(s, pat, rep, i, k);
  }
}
