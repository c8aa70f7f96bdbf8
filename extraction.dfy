/**
 * `extract_id_from_lines` (src/text_extraction.py:68-149): candidate search over the
 * cleaned OCR lines, selection against the file-name reference, the sliding-window
 * last resort, and the confidence of the winner.
 *
 * The functions give the value the procedure computes, stage by stage; the method
 * `ExtractIdFromLines` is the procedure itself, with its loops, proved to compute it.
 */
module Extraction {
  import opened Wrappers
  import opened Normalization
  import opened Patterns
  import opened Distance
  import opened Correction

  /** A candidate: its numeric part and its full `<digits>_1` identifier. */
  datatype Candidate = Candidate(num: string, id: string)

  predicate WellFormed(c: Candidate)
  {
    1 <= |c.num| && AllDigits(c.num) && c.id == c.num + "_1"
  }

  /** `s.split("_")[0]`: the text before the first underscore. */
  function SplitHead(s: string): (h: string)
    ensures |h| <= |s| && h == s[..|h|]
    ensures '_' !in h
    ensures |h| == |s| || s[|h|] == '_'
  {
    if s == [] || s[0] == '_' then [] else [s[0]] + SplitHead(s[1..])
  }

  lemma SplitHeadOfCanonical(s: string)
    requires IsCanonicalId(s)
    ensures SplitHead(s) == s[..|s| - 2]
    ensures s == s[..|s| - 2] + "_1"
  {
    var n := |s| - 2;
    forall i | 0 <= i < n
      ensures s[i] != '_'
    {
      assert IsDigit(s[i]);
    }
    SplitHeadAt(s, n);
    assert s[n..] == "_1";
    assert s == s[..n] + s[n..];
  }

  /** The head ends at the first underscore. */
  lemma {:induction false} SplitHeadAt(s: string, n: nat)
    requires n < |s| && s[n] == '_'
    requires forall i :: 0 <= i < n ==> s[i] != '_'
    ensures SplitHead(s) == s[..n]
  {
    if n > 0 {
      SplitHeadAt(s[1..], n - 1);
      assert s[..n] == [s[0]] + s[1..][..n - 1];
    }
  }

  /** `re.finditer(r"(\d{10,25}_1)", L)`, each match `cid` recorded as `(cid.split("_")[0], cid)`. */
  function DirectCandidates(L: string): seq<Candidate>
  {
    var ms := FindAll(DirectId, L, 0);
    seq(|ms|, k requires 0 <= k < |ms| => Candidate(SplitHead(ms[k]), ms[k]))
  }

  lemma DirectCandidatesWellFormed(L: string)
    ensures forall k :: 0 <= k < |DirectCandidates(L)| ==>
              WellFormed(DirectCandidates(L)[k]) && 10 <= |DirectCandidates(L)[k].num| <= 25
  {
    var ms := FindAll(DirectId, L, 0);
    forall k | 0 <= k < |ms|
      ensures WellFormed(DirectCandidates(L)[k]) && 10 <= |DirectCandidates(L)[k].num| <= 25
    {
      SplitHeadOfCanonical(ms[k]);
    }
  }

  /** The text reversed (`"".join(reversed(digits))`). */
  function Reverse(s: string): (r: string)
    ensures |r| == |s|
    ensures forall i :: 0 <= i < |s| ==> r[i] == s[|s| - 1 - i]
  {
    if s == [] then [] else Reverse(s[1..]) + [s[0]]
  }

  lemma ReverseReverse(s: string)
    ensures Reverse(Reverse(s)) == s
  {
  }

  /**
   * The backup tier (lines 101-113): when the line holds `_1` but no `\d{10,25}_1`, the
   * digits directly left of the first `_1` become a candidate if there are ten or more.
   */
  function Fallback(L: string): seq<Candidate>
  {
    match FindSuffix(L, 0)
    case None => []
    case Some(idx) =>
      if Search(DirectId, L, 0).Some? then []
      else
        var digits := L[RunStart(L, idx)..idx];
        if |digits| >= 10 then [Candidate(digits, digits + "_1")] else []
  }

  /** Ten or more digits before a `_1` always contain a `\d{10,25}_1` match (its last 25 or fewer digits). */
  lemma LongRunIsDirectMatch(L: string, idx: nat)
    requires SuffixAt(L, idx) && idx - RunStart(L, idx) >= 10
    ensures Search(DirectId, L, 0).Some?
  {
    var s := RunStart(L, idx);
    var p := if idx - s > 25 then idx - 25 else s;
    RunEndUnique(L, p, idx);
    assert MatchAt(DirectId, L, p);
  }

  /** The backup tier never adds a candidate: its guard excludes the only case where it would. */
  lemma FallbackNeverFires(L: string)
    ensures Fallback(L) == []
  {
    match FindSuffix(L, 0)
    case None =>
    case Some(idx) =>
      if idx - RunStart(L, idx) >= 10 {
        LongRunIsDirectMatch(L, idx);
      }
  }

  /** The candidates one cleaned line contributes, in the order they are appended. */
  function LineCandidates(L: string): seq<Candidate>
  {
    DirectCandidates(L) + Fallback(L)
  }

  /** The candidates of all lines, in the order they are appended. */
  function Candidates(lines: seq<string>): seq<Candidate>
  {
    if lines == [] then []
    else Candidates(lines[..|lines| - 1]) + LineCandidates(NormalizeLine(lines[|lines| - 1]))
  }

  lemma CandidatesSnoc(lines: seq<string>, n: nat)
    requires n < |lines|
    ensures Candidates(lines[..n + 1]) == Candidates(lines[..n]) + LineCandidates(NormalizeLine(lines[n]))
  {
    assert lines[..n + 1][..n] == lines[..n];
  }

  /** Every candidate has 10 to 25 digits and is its digits followed by `_1`. */
  lemma {:induction false} CandidatesWellFormed(lines: seq<string>)
    ensures forall k :: 0 <= k < |Candidates(lines)| ==>
              WellFormed(Candidates(lines)[k]) && 10 <= |Candidates(lines)[k].num| <= 25
  {
    if lines != [] {
      var L := NormalizeLine(lines[|lines| - 1]);
      var pre := Candidates(lines[..|lines| - 1]);
      var cur := DirectCandidates(L);
      CandidatesWellFormed(lines[..|lines| - 1]);
      DirectCandidatesWellFormed(L);
      FallbackNeverFires(L);
      assert Candidates(lines) == pre + cur;
      WellFormedConcat(pre, cur, 10, 25);
    }
  }

  /** Two runs of well-formed candidates with numeric parts of `lo` to `hi` digits stay so joined. */
  lemma WellFormedConcat(pre: seq<Candidate>, cur: seq<Candidate>, lo: nat, hi: nat)
    requires forall k :: 0 <= k < |pre| ==> WellFormed(pre[k]) && lo <= |pre[k].num| <= hi
    requires forall k :: 0 <= k < |cur| ==> WellFormed(cur[k]) && lo <= |cur[k].num| <= hi
    ensures forall k :: 0 <= k < |pre + cur| ==> WellFormed((pre + cur)[k]) && lo <= |(pre + cur)[k].num| <= hi
  {
    forall k | 0 <= k < |pre + cur|
      ensures WellFormed((pre + cur)[k]) && lo <= |(pre + cur)[k].num| <= hi
    {
      if k < |pre| {
        assert (pre + cur)[k] == pre[k];
      } else {
        assert (pre + cur)[k] == cur[k - |pre|];
      }
    }
  }

  lemma CandidateAt(lines: seq<string>, k: nat)
    requires k < |Candidates(lines)|
    ensures WellFormed(Candidates(lines)[k]) && 10 <= |Candidates(lines)[k].num| <= 25
  {
    CandidatesWellFormed(lines);
  }

  /** The distance of a candidate's numeric part to the reference. */
  function Score(c: Candidate, ref: string): nat
  {
    HammingLike(c.num, ref)
  }

  /** The candidate a scan with a strict `<` keeps: the first of smallest score. */
  function FirstClosest(cs: seq<Candidate>, ref: string): (k: nat)
    requires |cs| > 0
    ensures k < |cs|
    ensures forall j :: 0 <= j < |cs| ==> Score(cs[k], ref) <= Score(cs[j], ref)
    ensures forall j :: 0 <= j < k ==> Score(cs[k], ref) < Score(cs[j], ref)
  {
    if |cs| == 1 then 0
    else
      var k := FirstClosest(cs[..|cs| - 1], ref);
      if Score(cs[|cs| - 1], ref) < Score(cs[k], ref) then |cs| - 1 else k
  }

  /** `max(candidates, key=lambda x: len(x[0]))`: the first candidate of greatest numeric length. */
  function FirstLongest(cs: seq<Candidate>): (k: nat)
    requires |cs| > 0
    ensures k < |cs|
    ensures forall j :: 0 <= j < |cs| ==> |cs[j].num| <= |cs[k].num|
    ensures forall j :: 0 <= j < k ==> |cs[j].num| < |cs[k].num|
  {
    if |cs| == 1 then 0
    else
      var k := FirstLongest(cs[..|cs| - 1]);
      if |cs[|cs| - 1].num| > |cs[k].num| then |cs| - 1 else k
  }

  /** Every window of length `m` over a digit stream, by start offset, as a candidate. */
  function LineWindows(digits: string, m: nat): seq<Candidate>
  {
    if |digits| < m then []
    else seq(|digits| - m + 1, i requires 0 <= i <= |digits| - m =>
               Candidate(digits[i..i + m], digits[i..i + m] + "_1"))
  }

  /** The last-resort windows of every line, in the order they are scored. */
  function WindowCandidates(lines: seq<string>, m: nat): seq<Candidate>
  {
    if lines == [] then []
    else WindowCandidates(lines[..|lines| - 1], m) + LineWindows(DigitsOnly(lines[|lines| - 1]), m)
  }

  /** Every last-resort window is exactly `m` digits followed by `_1`. */
  lemma {:induction false} WindowCandidatesWellFormed(lines: seq<string>, m: nat)
    requires m >= 1
    ensures forall k :: 0 <= k < |WindowCandidates(lines, m)| ==>
              WellFormed(WindowCandidates(lines, m)[k]) && |WindowCandidates(lines, m)[k].num| == m
  {
    if lines != [] {
      var pre := WindowCandidates(lines[..|lines| - 1], m);
      var cur := LineWindows(DigitsOnly(lines[|lines| - 1]), m);
      WindowCandidatesWellFormed(lines[..|lines| - 1], m);
      LineWindowsWellFormed(DigitsOnly(lines[|lines| - 1]), m);
      assert WindowCandidates(lines, m) == pre + cur;
      WellFormedConcat(pre, cur, m, m);
    }
  }

  lemma WindowAt(lines: seq<string>, m: nat, k: nat)
    requires m >= 1 && k < |WindowCandidates(lines, m)|
    ensures WellFormed(WindowCandidates(lines, m)[k]) && |WindowCandidates(lines, m)[k].num| == m
  {
    WindowCandidatesWellFormed(lines, m);
  }

  lemma LineWindowsWellFormed(digits: string, m: nat)
    requires m >= 1 && AllDigits(digits)
    ensures forall k :: 0 <= k < |LineWindows(digits, m)| ==>
              WellFormed(LineWindows(digits, m)[k]) && |LineWindows(digits, m)[k].num| == m
  {
    var ws := LineWindows(digits, m);
    forall k | 0 <= k < |ws|
      ensures WellFormed(ws[k]) && |ws[k].num| == m
    {
      assert ws[k].num == digits[k..k + m];
    }
  }

  /** The winner and, when one was scored against the reference, its distance and confidence. */
  datatype Extraction = Extraction(id: Option<string>, score: Option<nat>, conf: Option<real>)

  /** The pair `(id, score)` the selection and the last resort settle on. */
  function Select(lines: seq<string>, ref: Option<string>): (Option<string>, Option<nat>)
  {
    var cands := Candidates(lines);
    if |cands| > 0 then
      if ref.Some? then
        var b := FirstClosest(cands, ref.value);
        (Some(cands[b].id), Some(Score(cands[b], ref.value)))
      else
        (Some(cands[FirstLongest(cands)].id), None)
    else if ref.Some? then
      var ws := WindowCandidates(lines, |ref.value|);
      if |ws| > 0 then
        var b := FirstClosest(ws, ref.value);
        (Some(ws[b].id), Some(Score(ws[b], ref.value)))
      else (None, None)
    else (None, None)
  }

  /** What `extract_id_from_lines(lines, base_name)` computes. */
  function Extract(lines: seq<string>, baseName: Option<string>): Extraction
  {
    var ref := Reference(baseName);
    var (id, score) := Select(lines, ref);
    Extraction(id, score,
               if ref.Some? && score.Some? then Some(Confidence(score.value, |ref.value|)) else None)
  }

  /**
   * A returned identifier is `<digits>_1`: with 10 to 25 digits when it is a candidate
   * found in the text, with exactly as many digits as the reference when it is a window.
   */
  lemma ExtractedIdShape(lines: seq<string>, baseName: Option<string>)
    ensures var e := Extract(lines, baseName);
            e.id.Some? ==>
              IsCanonicalId(e.id.value) &&
              (|Candidates(lines)| > 0 ==> 12 <= |e.id.value| <= 27) &&
              (|Candidates(lines)| == 0 ==>
                 Reference(baseName).Some? && |e.id.value| == |Reference(baseName).value| + 2)
  {
    var ref := Reference(baseName);
    var cands := Candidates(lines);
    var e := Extract(lines, baseName);
    if e.id.Some? {
      if |cands| > 0 {
        var b := if ref.Some? then FirstClosest(cands, ref.value) else FirstLongest(cands);
        CandidateAt(lines, b);
        DigitsWithSuffixIsCanonical(cands[b].num);
      } else {
        var ws := WindowCandidates(lines, |ref.value|);
        var b := FirstClosest(ws, ref.value);
        WindowAt(lines, |ref.value|, b);
        DigitsWithSuffixIsCanonical(ws[b].num);
      }
    }
  }

  /**
   * A confidence is reported exactly when the base name carries a reference and an
   * identifier was chosen; it is the confidence of the distance between the chosen
   * identifier's digits and the reference.
   */
  lemma ExtractedConfidence(lines: seq<string>, baseName: Option<string>)
    ensures var e := Extract(lines, baseName);
            e.conf.Some? <==> Reference(baseName).Some? && e.id.Some?
    ensures var e := Extract(lines, baseName);
            e.conf.Some? ==>
              var ref := Reference(baseName).value;
              var id := e.id.value;
              |id| >= 2 && e.score == Some(HammingLike(id[..|id| - 2], ref)) &&
              e.conf.value == Confidence(e.score.value, |ref|)
  {
    var ref := Reference(baseName);
    if ref.Some? {
      var e := Extract(lines, baseName);
      var cands := Candidates(lines);
      if |cands| > 0 {
        var b := FirstClosest(cands, ref.value);
        assert e.id == Some(cands[b].id) && e.score == Some(Score(cands[b], ref.value));
        CandidateAt(lines, b);
        assert cands[b].id[..|cands[b].id| - 2] == cands[b].num;
      } else {
        var ws := WindowCandidates(lines, |ref.value|);
        if |ws| > 0 {
          var b := FirstClosest(ws, ref.value);
          assert e.id == Some(ws[b].id) && e.score == Some(Score(ws[b], ref.value));
          WindowAt(lines, |ref.value|, b);
          assert ws[b].id[..|ws[b].id| - 2] == ws[b].num;
        }
      }
    }
  }

  /** An identifier found only by the last resort is never reported below confidence one half. */
  lemma LastResortConfidenceAtLeastHalf(lines: seq<string>, baseName: Option<string>)
    requires |Candidates(lines)| == 0
    ensures var e := Extract(lines, baseName);
            e.conf.Some? ==> e.conf.value >= 0.5
  {
    var ref := Reference(baseName);
    if ref.Some? {
      var ws := WindowCandidates(lines, |ref.value|);
      if |ws| > 0 {
        var b := FirstClosest(ws, ref.value);
        WindowAt(lines, |ref.value|, b);
        ConfidenceAtLeastHalf(Score(ws[b], ref.value), |ref.value|);
      }
    }
  }

  /** The candidate-collection loop of lines 88-113, over every line. */
  method CollectCandidates(lines: seq<string>) returns (candidates: seq<Candidate>)
    ensures candidates == Candidates(lines)
  {
    candidates := [];
    for n := 0 to |lines|
      invariant candidates == Candidates(lines[..n])
    {
      var found := ScanLine(lines[n]);
      candidates := candidates + found;
      CandidatesSnoc(lines, n);
    }
    assert lines[..|lines|] == lines;
  }

  /** The body of the loop over lines (lines 89-113): clean the line, then both tiers. */
  method ScanLine(raw: string) returns (found: seq<Candidate>)
    ensures found == LineCandidates(NormalizeLine(raw))
  {
    var L := NormalizeLine(raw);
    var direct := ScanDirect(L);
    var backup := ScanBackup(L);
    found := direct + backup;
  }

  /** The `re.finditer` loop of lines 96-99 on one cleaned line. */
  method ScanDirect(L: string) returns (found: seq<Candidate>)
    ensures found == DirectCandidates(L)
  {
    found := [];
    var matches := FindAll(DirectId, L, 0);
    for k := 0 to |matches|
      invariant found == DirectCandidates(L)[..k]
    {
      var cid := matches[k];
      var num := SplitHead(cid);
      found := found + [Candidate(num, cid)];
      assert DirectCandidates(L)[..k + 1] == DirectCandidates(L)[..k] + [Candidate(num, cid)];
    }
    assert DirectCandidates(L)[..|matches|] == DirectCandidates(L);
  }

  /** The backup tier of lines 101-113 on one cleaned line, walking left from the first `_1`. */
  method ScanBackup(L: string) returns (found: seq<Candidate>)
    ensures found == Fallback(L)
  {
    found := [];
    var u := FindSuffix(L, 0);
    if u.Some? && Search(DirectId, L, 0).None? {
      var idx := u.value;
      var j: int := (idx as int) - 1;
      var digits: string := [];
      while j >= 0 && IsDigit(L[j])
        invariant -1 <= j < idx
        invariant RunStart(L, j + 1) == RunStart(L, idx)
        invariant digits == Reverse(L[j + 1..idx])
      {
        BackupStep(L, j, idx);
        digits := digits + [L[j]];
        j := j - 1;
      }
      BackupDone(L, j, idx);
      ReverseReverse(L[j + 1..idx]);
      digits := Reverse(digits);
      if |digits| >= 10 {
        found := [Candidate(digits, digits + "_1")];
      }
    }
  }

  /** Taking one more digit to the left keeps the run's start and extends the reversed digits. */
  lemma BackupStep(L: string, j: nat, idx: nat)
    requires j < idx <= |L| && IsDigit(L[j])
    ensures RunStart(L, j) == RunStart(L, j + 1)
    ensures Reverse(L[j..idx]) == Reverse(L[j + 1..idx]) + [L[j]]
  {
    assert L[j..idx][1..] == L[j + 1..idx];
  }

  /** The walk stops exactly at the start of the run. */
  lemma BackupDone(L: string, j: int, idx: nat)
    requires -1 <= j < idx <= |L|
    requires j < 0 || !IsDigit(L[j])
    ensures RunStart(L, j + 1) == j + 1
  {
  }

  /**
   * The scan with a strict `<` as the source runs it, one candidate after another: the
   * identifier and distance it keeps, `None` before the first candidate.
   */
  function Closest(cs: seq<Candidate>, ref: string): (r: Option<(string, nat)>)
    ensures r.Some? <==> |cs| > 0
  {
    if |cs| == 0 then None
    else
      var c := cs[|cs| - 1];
      Keep(Closest(cs[..|cs| - 1], ref), c.id, Score(c, ref))
  }

  /** One step of the scan: a candidate replaces the best so far only when strictly closer. */
  function Keep(best: Option<(string, nat)>, id: string, score: nat): (r: Option<(string, nat)>)
    ensures r.Some?
    ensures r == best || r == Some((id, score))
    ensures best.Some? ==> r.value.1 <= best.value.1
  {
    if best.None? || score < best.value.1 then Some((id, score)) else best
  }

  /** The scan keeps exactly the first candidate of smallest distance. */
  lemma {:induction false} ClosestIsFirstClosest(cs: seq<Candidate>, ref: string)
    requires |cs| > 0
    ensures var b := FirstClosest(cs, ref);
            Closest(cs, ref) == Some((cs[b].id, Score(cs[b], ref)))
  {
    if |cs| > 1 {
      ClosestIsFirstClosest(cs[..|cs| - 1], ref);
    }
  }

  lemma ClosestExtend(before: seq<Candidate>, ws: seq<Candidate>, i: nat, ref: string)
    requires i < |ws|
    ensures Closest(before + ws[..i + 1], ref) == Keep(Closest(before + ws[..i], ref), ws[i].id, Score(ws[i], ref))
  {
    assert (before + ws[..i + 1])[..|before| + i] == before + ws[..i];
  }

  /** Scoring the window at offset `i` extends the scan over the earlier windows by one step. */
  lemma AlignStep(digits: string, ref: string, before: seq<Candidate>, i: nat,
                  best: Option<(string, nat)>, seg: string, score: nat)
    requires i + |ref| <= |digits|
    requires best == Closest(before + LineWindows(digits, |ref|)[..i], ref)
    requires seg == digits[i..i + |ref|] && score == HammingLike(seg, ref)
    ensures (if best.None? || score < best.value.1 then Some((seg + "_1", score)) else best) ==
            Closest(before + LineWindows(digits, |ref|)[..i + 1], ref)
  {
    var ws := LineWindows(digits, |ref|);
    assert ws[i] == Candidate(seg, seg + "_1");
    ClosestExtend(before, ws, i, ref);
  }

  /** The scan of lines 118-122: a strict `<` keeps the first candidate of smallest distance. */
  method ClosestToReference(candidates: seq<Candidate>, ref: string) returns (bestId: string, bestScore: nat)
    requires |candidates| > 0
    ensures var b := FirstClosest(candidates, ref);
            bestId == candidates[b].id && bestScore == Score(candidates[b], ref)
  {
    var best: Option<(string, nat)> := None;
    for k := 0 to |candidates|
      invariant best == Closest(candidates[..k], ref)
    {
      var score := HammingLike(candidates[k].num, ref);
      ClosestExtend([], candidates, k, ref);
      assert [] + candidates[..k] == candidates[..k] && [] + candidates[..k + 1] == candidates[..k + 1];
      if best.None? || score < best.value.1 {
        best := Some((candidates[k].id, score));
      }
    }
    assert candidates[..|candidates|] == candidates;
    ClosestIsFirstClosest(candidates, ref);
    bestId, bestScore := best.value.0, best.value.1;
  }

  /** The last resort of lines 129-141: the first window closest to the reference over all lines. */
  method AlignWindows(lines: seq<string>, ref: string) returns (best: Option<(string, nat)>)
    ensures best == Closest(WindowCandidates(lines, |ref|), ref)
  {
    best := None;
    for n := 0 to |lines|
      invariant best == Closest(WindowCandidates(lines[..n], |ref|), ref)
    {
      var L := DigitsOnly(lines[n]);
      ghost var before := WindowCandidates(lines[..n], |ref|);
      assert lines[..n + 1][..n] == lines[..n];
      assert WindowCandidates(lines[..n + 1], |ref|) == before + LineWindows(L, |ref|);
      if |L| < |ref| {
        assert before + LineWindows(L, |ref|) == before;
        continue;
      }
      best := AlignLine(L, ref, before, best);
    }
    assert lines[..|lines|] == lines;
  }

  /** The inner loop of lines 136-141: every reference-length window of one digit stream. */
  method AlignLine(digits: string, ref: string, ghost before: seq<Candidate>, best0: Option<(string, nat)>)
    returns (best: Option<(string, nat)>)
    requires |digits| >= |ref|
    requires best0 == Closest(before, ref)
    ensures best == Closest(before + LineWindows(digits, |ref|), ref)
  {
    best := best0;
    assert before + LineWindows(digits, |ref|)[..0] == before;
    for i := 0 to |digits| - |ref| + 1
      invariant best == Closest(before + LineWindows(digits, |ref|)[..i], ref)
    {
      var seg := digits[i..i + |ref|];
      var score := HammingLike(seg, ref);
      AlignStep(digits, ref, before, i, best, seg, score);
      if best.None? || score < best.value.1 {
        best := Some((seg + "_1", score));
      }
    }
    WindowsComplete(digits, |ref|);
  }

  lemma WindowsComplete(digits: string, m: nat)
    requires m <= |digits|
    ensures LineWindows(digits, m)[..|digits| - m + 1] == LineWindows(digits, m)
  {
  }

  /** `extract_id_from_lines` (lines 68-149), stage by stage. */
  method ExtractIdFromLines(lines: seq<string>, baseName: Option<string>)
    returns (bestId: Option<string>, conf: Option<real>)
    ensures bestId == Extract(lines, baseName).id
    ensures conf == Extract(lines, baseName).conf
    ensures bestId.Some? ==> IsCanonicalId(bestId.value)
    ensures conf.Some? <==> Reference(baseName).Some? && bestId.Some?
    ensures conf.Some? ==> 0.0 <= conf.value <= 1.0
  {
    // reference from the file name
    var refNum: Option<string> := None;
    if baseName.Some? {
      var m := TrailingDigits(baseName.value);
      if m.Some? {
        refNum := m;
      }
    }

    var candidates := CollectCandidates(lines);
    bestId := None;
    var bestScore: Option<nat> := None;

    if |candidates| > 0 {
      if refNum.Some? {
        var id, score := ClosestToReference(candidates, refNum.value);
        bestId, bestScore := Some(id), Some(score);
      } else {
        var b := FirstLongest(candidates);
        bestId := Some(candidates[b].id);
        bestScore := None;
      }
    }

    if bestId.None? && refNum.Some? {
      var best := AlignWindows(lines, refNum.value);
      if best.Some? {
        ClosestIsFirstClosest(WindowCandidates(lines, |refNum.value|), refNum.value);
        bestId, bestScore := Some(best.value.0), Some(best.value.1);
      }
    }

    // map distance to confidence
    conf := None;
    if refNum.Some? && bestScore.Some? {
      conf := Some(Confidence(bestScore.value, |refNum.value|));
    }
    ExtractedIdShape(lines, baseName);
    ExtractedConfidence(lines, baseName);
  }

}
