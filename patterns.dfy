/**
 * The three regular expressions of src/text_extraction.py as explicit scanners with
 * Python's leftmost-match semantics:
 *   `(\d+_1)`        searched by `canonical_id` (line 28),
 *   `(\d{10,25}_1)`  iterated by `extract_id_from_lines` (lines 96 and 102),
 *   `(\d+)_1$`       searched in file names and predictions (lines 41, 47 and 80).
 * In each pattern the digit class is followed by `_`, which is not a digit, so the
 * regex engine's greedy choice and backtracking can only ever settle on the maximal
 * digit run that starts at the match position; `MatchAtIsRegexMatch` proves it.
 */
module Patterns {
  import opened Wrappers
  import opened Normalization

  /** The canonical identifier shape: one or more digits followed by `_1`, nothing else. */
  predicate IsCanonicalId(s: string)
  {
    |s| >= 3 && s[|s| - 2] == '_' && s[|s| - 1] == '1' &&
    forall i :: 0 <= i < |s| - 2 ==> IsDigit(s[i])
  }

  lemma DigitsWithSuffixIsCanonical(d: string)
    requires |d| >= 1 && AllDigits(d)
    ensures IsCanonicalId(d + "_1")
    ensures (d + "_1")[..|d|] == d
  {
  }

  /** End of the maximal digit run that starts at `i`. */
  function RunEnd(t: string, i: nat): (k: nat)
    requires i <= |t|
    ensures i <= k <= |t|
    ensures forall j :: i <= j < k ==> IsDigit(t[j])
    ensures k == |t| || !IsDigit(t[k])
    decreases |t| - i
  {
    if i < |t| && IsDigit(t[i]) then RunEnd(t, i + 1) else i
  }

  /** Start of the maximal digit run that ends at `e`. */
  function RunStart(t: string, e: nat): (s: nat)
    requires e <= |t|
    ensures s <= e
    ensures forall j :: s <= j < e ==> IsDigit(t[j])
    ensures s == 0 || !IsDigit(t[s - 1])
  {
    if e > 0 && IsDigit(t[e - 1]) then RunStart(t, e - 1) else e
  }

  lemma RunEndUnique(t: string, i: nat, k: nat)
    requires i <= k <= |t|
    requires forall j :: i <= j < k ==> IsDigit(t[j])
    requires k == |t| || !IsDigit(t[k])
    ensures RunEnd(t, i) == k
  {
  }

  lemma RunStartUnique(t: string, s: nat, e: nat)
    requires s <= e <= |t|
    requires forall j :: s <= j < e ==> IsDigit(t[j])
    requires s == 0 || !IsDigit(t[s - 1])
    ensures RunStart(t, e) == s
  {
  }

  /** The literal `_1` occupies positions `k` and `k + 1` of `t`. */
  predicate SuffixAt(t: string, k: int)
  {
    0 <= k && k + 2 <= |t| && t[k] == '_' && t[k + 1] == '1'
  }

  datatype Pattern =
    | Id          // (\d+_1)
    | DirectId    // (\d{10,25}_1)
    | TrailingId  // (\d+)_1$

  /** The pattern matches at position `i`, reading the whole digit run that starts there. */
  predicate MatchAt(p: Pattern, t: string, i: nat)
  {
    i < |t| && IsDigit(t[i]) && SuffixAt(t, RunEnd(t, i)) &&
    match p
    case Id => true
    case DirectId => 10 <= RunEnd(t, i) - i <= 25
    case TrailingId => RunEnd(t, i) + 2 == |t|
  }

  /** The regular expression, read literally: its digit class consumes `n` characters at `i`. */
  ghost predicate Accepts(p: Pattern, t: string, i: nat, n: nat)
  {
    && SuffixAt(t, i + n)
    && (forall j :: i <= j < i + n ==> IsDigit(t[j]))
    && match p
       case Id => 1 <= n
       case DirectId => 10 <= n <= 25
       case TrailingId => 1 <= n && i + n + 2 == |t|
  }

  /**
   * `MatchAt` is exactly the regular expression's match at `i`, and the number of
   * digits a match consumes is forced, so greedy matching is irrelevant.
   */
  lemma MatchAtIsRegexMatch(p: Pattern, t: string, i: nat)
    ensures MatchAt(p, t, i) <==> exists n: nat :: Accepts(p, t, i, n)
    ensures forall n: nat :: Accepts(p, t, i, n) ==> i + n == RunEnd(t, i)
  {
    forall n: nat | Accepts(p, t, i, n)
      ensures i + n == RunEnd(t, i) && MatchAt(p, t, i)
    {
      RunEndUnique(t, i, i + n);
    }
    if MatchAt(p, t, i) {
      assert Accepts(p, t, i, RunEnd(t, i) - i);
    }
  }

  /** `re.search`: the leftmost match position at or after `from`. */
  function Search(p: Pattern, t: string, from: nat): (r: Option<nat>)
    ensures r.Some? ==> from <= r.value < |t| && MatchAt(p, t, r.value)
    ensures r.Some? ==> forall j :: from <= j < r.value ==> !MatchAt(p, t, j)
    ensures r.None? ==> forall j :: from <= j < |t| ==> !MatchAt(p, t, j)
    decreases |t| - from
  {
    if from >= |t| then None
    else if MatchAt(p, t, from) then Some(from)
    else Search(p, t, from + 1)
  }

  /** The text of the match at `i`: the digit run and its `_1`. */
  function MatchText(p: Pattern, t: string, i: nat): (m: string)
    requires MatchAt(p, t, i)
    ensures IsCanonicalId(m)
    ensures p == DirectId ==> 12 <= |m| <= 27
  {
    t[i..RunEnd(t, i) + 2]
  }

  /**
   * `ms` is what `re.finditer` yields from `from`: the text of the leftmost match, then what
   * it yields from the end of that match; nothing once no match is left.
   */
  ghost predicate Yields(p: Pattern, t: string, from: nat, ms: seq<string>)
    decreases |t| - from
  {
    match Search(p, t, from)
    case None => ms == []
    case Some(i) => |ms| > 0 && ms[0] == MatchText(p, t, i) && Yields(p, t, RunEnd(t, i) + 2, ms[1..])
  }

  /** `re.finditer`: successive leftmost matches, each search resuming where the last match ended. */
  function FindAll(p: Pattern, t: string, from: nat): (ms: seq<string>)
    ensures forall k :: 0 <= k < |ms| ==> IsCanonicalId(ms[k])
    ensures p == DirectId ==> forall k :: 0 <= k < |ms| ==> 12 <= |ms[k]| <= 27
    ensures ms == [] <==> Search(p, t, from).None?
    ensures ms != [] ==> ms[0] == MatchText(p, t, Search(p, t, from).value)
    ensures Yields(p, t, from, ms)
    decreases |t| - from
  {
    match Search(p, t, from)
    case None => []
    case Some(i) =>
      var rest := FindAll(p, t, RunEnd(t, i) + 2);
      assert ([MatchText(p, t, i)] + rest)[1..] == rest;
      [MatchText(p, t, i)] + rest
  }

  /**
   * `pos` are the start positions `re.finditer` visits from `from`: the leftmost match, then
   * the positions visited from the end of that match; none once no match is left.
   */
  ghost predicate SuccessiveMatches(p: Pattern, t: string, from: nat, pos: seq<nat>)
    decreases |pos|
  {
    match Search(p, t, from)
    case None => pos == []
    case Some(i) => |pos| > 0 && pos[0] == i && SuccessiveMatches(p, t, RunEnd(t, i) + 2, pos[1..])
  }

  /** After `k` visited positions, the visit resumes at the end of match `k - 1`. */
  lemma {:induction false} SuccessiveFrom(p: Pattern, t: string, from: nat, pos: seq<nat>, k: nat)
    requires SuccessiveMatches(p, t, from, pos) && 0 < k <= |pos|
    ensures pos[k - 1] < |t| && SuccessiveMatches(p, t, RunEnd(t, pos[k - 1]) + 2, pos[k..])
    decreases k
  {
    var i := Search(p, t, from).value;
    if k > 1 {
      SuccessiveFrom(p, t, RunEnd(t, i) + 2, pos[1..], k - 1);
      assert pos[1..][k - 2] == pos[k - 1] && pos[1..][k - 1..] == pos[k..];
    }
  }

  /**
   * Spelled out: every visited position is a match; the first is the leftmost one at or
   * after `from`; each later one starts no earlier than the previous match ended, with no
   * match in between.
   */
  lemma SuccessiveMatchesAreLeftmost(p: Pattern, t: string, from: nat, pos: seq<nat>, k: nat)
    requires SuccessiveMatches(p, t, from, pos) && k < |pos|
    ensures pos[k] < |t| && MatchAt(p, t, pos[k])
    ensures k == 0 ==> from <= pos[0] && forall j :: from <= j < pos[0] ==> !MatchAt(p, t, j)
    ensures k > 0 ==> pos[k - 1] < |t| && RunEnd(t, pos[k - 1]) + 2 <= pos[k] &&
                      forall j :: RunEnd(t, pos[k - 1]) + 2 <= j < pos[k] ==> !MatchAt(p, t, j)
  {
    if k > 0 {
      SuccessiveFrom(p, t, from, pos, k);
      assert pos[k..][0] == pos[k];
    }
  }

  /** No match remains after the end of the last visited match (or after `from` when there is none). */
  lemma NoMatchAfterLast(p: Pattern, t: string, from: nat, pos: seq<nat>)
    requires SuccessiveMatches(p, t, from, pos)
    ensures |pos| > 0 ==> pos[|pos| - 1] < |t|
    ensures var last := if |pos| == 0 then from else RunEnd(t, pos[|pos| - 1]) + 2;
            forall j :: last <= j < |t| ==> !MatchAt(p, t, j)
  {
    if |pos| > 0 {
      SuccessiveFrom(p, t, from, pos, |pos|);
    }
  }

  lemma ConsSuccessive(p: Pattern, t: string, from: nat, i: nat, rest: seq<nat>)
    requires Search(p, t, from) == Some(i) && SuccessiveMatches(p, t, RunEnd(t, i) + 2, rest)
    ensures SuccessiveMatches(p, t, from, [i] + rest)
  {
    assert ([i] + rest)[1..] == rest;
  }

  /** `pos` lists match positions of `p` in `t` and `ms` the texts of those matches, in order. */
  ghost predicate TextsAt(p: Pattern, t: string, pos: seq<nat>, ms: seq<string>)
  {
    |pos| == |ms| && forall k :: 0 <= k < |pos| ==> MatchAt(p, t, pos[k]) && ms[k] == MatchText(p, t, pos[k])
  }

  lemma ConsTextsAt(p: Pattern, t: string, i: nat, pos: seq<nat>, ms: seq<string>)
    requires MatchAt(p, t, i) && TextsAt(p, t, pos, ms)
    ensures TextsAt(p, t, [i] + pos, [MatchText(p, t, i)] + ms)
  {
    var pos', ms' := [i] + pos, [MatchText(p, t, i)] + ms;
    forall k | 1 <= k < |pos'|
      ensures MatchAt(p, t, pos'[k]) && ms'[k] == MatchText(p, t, pos'[k])
    {
      assert pos'[k] == pos[k - 1] && ms'[k] == ms[k - 1];
    }
  }

  lemma ConsYields(p: Pattern, t: string, from: nat, i: nat, rest: seq<nat>, ms: seq<string>)
    requires Search(p, t, from) == Some(i) && Yields(p, t, from, ms)
    requires SuccessiveMatches(p, t, RunEnd(t, i) + 2, rest) && TextsAt(p, t, rest, ms[1..])
    ensures SuccessiveMatches(p, t, from, [i] + rest) && TextsAt(p, t, [i] + rest, ms)
  {
    ConsTextsAt(p, t, i, rest, ms[1..]);
    ConsSuccessive(p, t, from, i, rest);
    assert [ms[0]] + ms[1..] == ms;
  }

  /** Texts related to `from` by `Yields` are the texts of the successive leftmost matches. */
  lemma {:induction false} YieldsSuccessiveMatches(p: Pattern, t: string, from: nat, ms: seq<string>)
    returns (pos: seq<nat>)
    requires Yields(p, t, from, ms)
    ensures SuccessiveMatches(p, t, from, pos) && TextsAt(p, t, pos, ms)
    decreases |t| - from
  {
    match Search(p, t, from)
    case None =>
      pos := [];
    case Some(i) =>
      var rest := YieldsSuccessiveMatches(p, t, RunEnd(t, i) + 2, ms[1..]);
      ConsYields(p, t, from, i, rest, ms);
      pos := [i] + rest;
  }

  /**
   * `re.finditer` yields the texts of the successive leftmost non-overlapping matches, in
   * order, and nothing else.
   */
  lemma FindAllSound(p: Pattern, t: string, from: nat)
    ensures exists pos: seq<nat> :: SuccessiveMatches(p, t, from, pos) && TextsAt(p, t, pos, FindAll(p, t, from))
  {
    var pos := YieldsSuccessiveMatches(p, t, from, FindAll(p, t, from));
  }

  /**
   * Ten or more digits followed by `_1` give exactly one `\d{10,25}_1` match: the last 25
   * digits (all of them when there are at most 25) and the `_1`.
   */
  lemma DirectIdOfLongRun(d: string)
    requires |d| >= 10 && AllDigits(d)
    ensures var s := if |d| > 25 then |d| - 25 else 0;
            FindAll(DirectId, d + "_1", 0) == [d[s..] + "_1"]
  {
    var t := d + "_1";
    var s := if |d| > 25 then |d| - 25 else 0;
    LongRunSearch(d);
    FindAllSingle(DirectId, t, s);
    SliceBeforeSuffix(d, s);
  }

  /** A match that ends the text is the only one `finditer` yields from there. */
  lemma FindAllSingle(p: Pattern, t: string, i: nat)
    requires Search(p, t, 0) == Some(i) && RunEnd(t, i) + 2 == |t|
    ensures FindAll(p, t, 0) == [t[i..|t|]]
  {
    assert FindAll(p, t, |t|) == [];
  }

  lemma SliceBeforeSuffix(d: string, s: nat)
    requires s <= |d|
    ensures (d + "_1")[s..|d| + 2] == d[s..] + "_1"
  {
  }

  /** The leftmost `\d{10,25}_1` match in `<digits>_1` starts at most 25 digits before the `_1`. */
  lemma LongRunSearch(d: string)
    requires |d| >= 10 && AllDigits(d)
    ensures var s := if |d| > 25 then |d| - 25 else 0;
            Search(DirectId, d + "_1", 0) == Some(s) && RunEnd(d + "_1", s) == |d|
  {
    var t := d + "_1";
    var s := if |d| > 25 then |d| - 25 else 0;
    assert forall j :: 0 <= j < |d| ==> t[j] == d[j];
    assert SuffixAt(t, |d|);
    forall j | 0 <= j <= |d|
      ensures RunEnd(t, j) == |d|
    {
      RunEndUnique(t, j, |d|);
    }
    assert MatchAt(DirectId, t, s);
    var r := Search(DirectId, t, 0);
    assert r.Some?;
    var i := r.value;
    assert i <= s;
    assert RunEnd(t, i) == |d|;
  }

  /** `L.index("_1")` guarded by `"_1" in L`: the first occurrence of `_1` at or after `from`. */
  function FindSuffix(t: string, from: nat): (r: Option<nat>)
    ensures r.Some? ==> from <= r.value && SuffixAt(t, r.value)
    ensures r.Some? ==> forall k :: from <= k < r.value ==> !SuffixAt(t, k)
    ensures r.None? ==> forall k :: from <= k ==> !SuffixAt(t, k)
    decreases |t| - from
  {
    if from + 2 > |t| then None
    else if SuffixAt(t, from) then Some(from)
    else FindSuffix(t, from + 1)
  }

  /**
   * `(\d+)_1$` has a match exactly when the text ends in a digit followed by `_1`;
   * the leftmost match starts where the digit run before that `_1` starts.
   */
  lemma TrailingSearch(t: string)
    ensures Search(TrailingId, t, 0).Some? <==> |t| >= 3 && SuffixAt(t, |t| - 2) && IsDigit(t[|t| - 3])
    ensures Search(TrailingId, t, 0).Some? ==>
              RunEnd(t, Search(TrailingId, t, 0).value) == |t| - 2 &&
              Search(TrailingId, t, 0).value == RunStart(t, |t| - 2)
  {
    if |t| >= 3 && SuffixAt(t, |t| - 2) && IsDigit(t[|t| - 3]) {
      TrailingRunMatches(t);
    }
    var r := Search(TrailingId, t, 0);
    if r.Some? {
      TrailingMatchIsRunStart(t, r.value);
    }
  }

  /** The digit run before a final `_1` is a match of `(\d+)_1$`. */
  lemma TrailingRunMatches(t: string)
    requires |t| >= 3 && SuffixAt(t, |t| - 2) && IsDigit(t[|t| - 3])
    ensures MatchAt(TrailingId, t, RunStart(t, |t| - 2))
  {
    var s := RunStart(t, |t| - 2);
    RunEndUnique(t, s, |t| - 2);
  }

  /** A match of `(\d+)_1$` that no earlier match precedes starts the digit run before the final `_1`. */
  lemma TrailingMatchIsRunStart(t: string, i: nat)
    requires MatchAt(TrailingId, t, i)
    requires forall j :: 0 <= j < i ==> !MatchAt(TrailingId, t, j)
    ensures |t| >= 3 && SuffixAt(t, |t| - 2) && IsDigit(t[|t| - 3])
    ensures RunEnd(t, i) == |t| - 2 && i == RunStart(t, |t| - 2)
  {
    var e := RunEnd(t, i);
    assert e == |t| - 2 && IsDigit(t[e - 1]);
    var s := RunStart(t, e);
    RunEndUnique(t, s, e);
    assert MatchAt(TrailingId, t, s);
  }

  /** `re.search(r"(\d+)_1$", t).group(1)`, or `None` when there is no match. */
  function TrailingDigits(t: string): (r: Option<string>)
    ensures r.Some? <==> |t| >= 3 && SuffixAt(t, |t| - 2) && IsDigit(t[|t| - 3])
    ensures r.Some? ==> r.value == t[RunStart(t, |t| - 2)..|t| - 2]
    ensures r.Some? ==> 1 <= |r.value| && AllDigits(r.value)
  {
    TrailingSearch(t);
    match Search(TrailingId, t, 0)
    case None => None
    case Some(i) => Some(t[i..RunEnd(t, i)])
  }

  /** Any text that ends in a digit run preceded by a non-digit (or nothing) and `_1` yields that run. */
  lemma TrailingDigitsOfId(prefix: string, d: string)
    requires 1 <= |d| && AllDigits(d)
    requires prefix == [] || !IsDigit(prefix[|prefix| - 1])
    ensures TrailingDigits(prefix + d + "_1") == Some(d)
  {
    var t := prefix + d + "_1";
    var e := |t| - 2;
    assert e == |prefix| + |d|;
    assert t[e] == '_' && t[e + 1] == '1';
    forall j | |prefix| <= j < e
      ensures t[j] == d[j - |prefix|] && IsDigit(t[j])
    {
    }
    assert prefix == [] || t[|prefix| - 1] == prefix[|prefix| - 1];
    RunStartUnique(t, |prefix|, e);
    assert t[|prefix|..e] == d;
  }

}
