/** `canonical_id` (src/text_extraction.py:15-29). */
module Canonical {
  import opened Wrappers
  import opened Normalization
  import opened Patterns

  /** Some digit stands immediately before a `_1`, the condition for `\d+_1` to be found. */
  ghost predicate HasDigitBeforeSuffix(t: string)
  {
    exists k :: 1 <= k && SuffixAt(t, k) && IsDigit(t[k - 1])
  }

  /** `k` is the first position of a `_1` with a digit directly before it. */
  ghost predicate FirstIdSuffix(t: string, k: int)
  {
    && 1 <= k && SuffixAt(t, k) && IsDigit(t[k - 1])
    && forall k' :: 1 <= k' < k ==> !(SuffixAt(t, k') && IsDigit(t[k' - 1]))
  }

  /** A `_1` with a digit before it ends a `\d+_1` match starting where that digit run starts. */
  lemma SuffixMatch(t: string, k: nat)
    requires 1 <= k <= |t|
    ensures SuffixAt(t, k) && IsDigit(t[k - 1]) ==> RunStart(t, k) < k && MatchAt(Id, t, RunStart(t, k))
  {
    if SuffixAt(t, k) && IsDigit(t[k - 1]) {
      RunEndUnique(t, RunStart(t, k), k);
    }
  }

  /**
   * The leftmost `\d+_1` match ends at the first `_1` with a digit before it, and starts
   * where the digit run before that `_1` starts.
   */
  lemma IdSearchLeftmost(t: string, i: nat)
    requires Search(Id, t, 0) == Some(i)
    ensures FirstIdSuffix(t, RunEnd(t, i))
    ensures RunStart(t, RunEnd(t, i)) == i
    ensures exists k :: FirstIdSuffix(t, k) && MatchText(Id, t, i) == t[RunStart(t, k)..k + 2]
  {
    var e := RunEnd(t, i);
    assert IsDigit(t[e - 1]);
    var s := RunStart(t, e);
    RunEndUnique(t, s, e);
    assert s <= i;
    assert MatchAt(Id, t, s);
    forall k' | 1 <= k' < e
      ensures !(SuffixAt(t, k') && IsDigit(t[k' - 1]))
    {
      SuffixMatch(t, k');
    }
  }

  lemma IdSearch(t: string)
    ensures Search(Id, t, 0).Some? <==> HasDigitBeforeSuffix(t)
  {
    if HasDigitBeforeSuffix(t) {
      var k :| 1 <= k && SuffixAt(t, k) && IsDigit(t[k - 1]);
      var s := RunStart(t, k);
      RunEndUnique(t, s, k);
      assert MatchAt(Id, t, s);
    }
    if Search(Id, t, 0).Some? {
      var e := RunEnd(t, Search(Id, t, 0).value);
      assert SuffixAt(t, e) && IsDigit(t[e - 1]);
    }
  }

  /**
   * Undoes letter/digit confusions, keeps only digits and underscores, and returns the
   * leftmost `<digits>_1` token, or `None`.
   */
  function CanonicalId(text: Option<string>): (r: Option<string>)
    ensures text.None? ==> r.None?
    ensures text.Some? ==> (r.Some? <==> HasDigitBeforeSuffix(Normalize(text.value)))
    ensures r.Some? ==> IsCanonicalId(r.value)
    ensures text.Some? && r.Some? ==>
              var t := Normalize(text.value);
              exists k :: FirstIdSuffix(t, k) && r.value == t[RunStart(t, k)..k + 2]
  {
    if text.None? then None
    else
      var t := Normalize(text.value);
      IdSearch(t);
      match Search(Id, t, 0)
      case None => None
      case Some(i) =>
        IdSearchLeftmost(t, i);
        Some(MatchText(Id, t, i))
  }

  /** A canonical identifier is returned unchanged. */
  lemma CanonicalIdOfCanonical(s: string)
    requires IsCanonicalId(s)
    ensures CanonicalId(Some(s)) == Some(s)
  {
    assert AllIdChars(s) by {
      forall i | 0 <= i < |s| ensures IsIdChar(s[i]) {
        if i < |s| - 2 { assert IsDigit(s[i]); }
      }
    }
    assert Normalize(s) == s;
    IdSearchAtStart(s);
  }

  lemma IdSearchAtStart(s: string)
    requires IsCanonicalId(s)
    ensures Search(Id, s, 0) == Some(0)
    ensures MatchText(Id, s, 0) == s
  {
    RunEndUnique(s, 0, |s| - 2);
    assert MatchAt(Id, s, 0);
  }

  /** `canonical_id(canonical_id(x)) == canonical_id(x)`. */
  lemma CanonicalIdIdempotent(text: Option<string>)
    ensures CanonicalId(CanonicalId(text)) == CanonicalId(text)
  {
    if CanonicalId(text).Some? {
      CanonicalIdOfCanonical(CanonicalId(text).value);
    }
  }

}
