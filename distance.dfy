/**
 * `hamming_like` (src/text_extraction.py:4-12) and the distance-to-confidence map of
 * `extract_id_from_lines` (lines 143-147).
 */
module Distance {

  function Min(a: nat, b: nat): nat { if a <= b then a else b }

  /** `abs(a - b)` */
  function Gap(a: nat, b: nat): nat { if a <= b then b - a else a - b }

  /** `sum(1 for i in range(m) if a[i] != b[i])` */
  function Mismatches(a: string, b: string, m: nat): (c: nat)
    requires m <= |a| && m <= |b|
    ensures c <= m
  {
    if m == 0 then 0 else Mismatches(a, b, m - 1) + (if a[m - 1] != b[m - 1] then 1 else 0)
  }

  /** Position-by-position mismatches over the common length, plus two per missing character. */
  function HammingLike(a: string, b: string): (d: nat)
    ensures 2 * Gap(|a|, |b|) <= d <= Min(|a|, |b|) + 2 * Gap(|a|, |b|)
  {
    Mismatches(a, b, Min(|a|, |b|)) + 2 * Gap(|a|, |b|)
  }

  /** The positions below `m` where `a` and `b` differ. */
  ghost function MismatchesBelow(a: string, b: string, m: nat): set<nat>
    requires m <= |a| && m <= |b|
  {
    set i: nat | i < m && a[i] != b[i]
  }

  /** The positions, common to both strings, where they differ. */
  ghost function MismatchPositions(a: string, b: string): set<nat>
  {
    set i: nat | i < |a| && i < |b| && a[i] != b[i]
  }

  lemma {:induction false} MismatchesCountsPositions(a: string, b: string, m: nat)
    requires m <= |a| && m <= |b|
    ensures Mismatches(a, b, m) == |MismatchesBelow(a, b, m)|
  {
    if m == 0 {
      assert MismatchesBelow(a, b, m) == {};
    } else {
      MismatchesCountsPositions(a, b, m - 1);
      if a[m - 1] != b[m - 1] {
        assert MismatchesBelow(a, b, m) == MismatchesBelow(a, b, m - 1) + {m - 1};
      } else {
        assert MismatchesBelow(a, b, m) == MismatchesBelow(a, b, m - 1);
      }
    }
  }

  /**
   * `hamming_like(a, b)` counts the differing common positions and adds twice the
   * length difference; on strings of one length it is the Hamming distance.
   */
  lemma HammingLikeCountsMismatches(a: string, b: string)
    ensures HammingLike(a, b) == |MismatchPositions(a, b)| + 2 * Gap(|a|, |b|)
    ensures |a| == |b| ==> HammingLike(a, b) == |MismatchPositions(a, b)|
  {
    MismatchesCountsPositions(a, b, Min(|a|, |b|));
    assert MismatchesBelow(a, b, Min(|a|, |b|)) == MismatchPositions(a, b);
  }

  lemma HammingLikeSymmetric(a: string, b: string)
    ensures HammingLike(a, b) == HammingLike(b, a)
  {
    HammingLikeCountsMismatches(a, b);
    HammingLikeCountsMismatches(b, a);
    assert MismatchPositions(a, b) == MismatchPositions(b, a);
  }

  lemma HammingLikeZeroIffEqual(a: string, b: string)
    ensures HammingLike(a, b) == 0 <==> a == b
  {
    HammingLikeCountsMismatches(a, b);
    if HammingLike(a, b) == 0 {
      assert MismatchPositions(a, b) == {};
      forall i | 0 <= i < |a|
        ensures a[i] == b[i]
      {
        assert i !in MismatchPositions(a, b);
      }
    }
    if a == b {
      assert MismatchPositions(a, b) == {};
    }
  }

  /** `max(0.0, 1.0 - score / (2 * len(ref)))`, over the reals. */
  function Confidence(score: nat, refLen: nat): (c: real)
    requires refLen > 0
    ensures 0.0 <= c <= 1.0
    ensures c == 1.0 <==> score == 0
    ensures c == 0.0 <==> score >= 2 * refLen
  {
    var maxPenalty := 2 * refLen;
    var q := (score as real) / (maxPenalty as real);
    assert q >= 1.0 <==> score >= maxPenalty by {
      assert q * (maxPenalty as real) == score as real;
    }
    var v := 1.0 - q;
    if 0.0 >= v then 0.0 else v
  }

  lemma ConfidenceNonIncreasing(s1: nat, s2: nat, refLen: nat)
    requires refLen > 0 && s1 <= s2
    ensures Confidence(s2, refLen) <= Confidence(s1, refLen)
  {
    var mp := (2 * refLen) as real;
    assert (s1 as real) / mp <= (s2 as real) / mp by {
      assert (s2 as real) / mp - (s1 as real) / mp == ((s2 - s1) as real) / mp;
    }
  }

  /** A score no larger than the reference's length keeps the confidence at one half or more. */
  lemma ConfidenceAtLeastHalf(score: nat, refLen: nat)
    requires refLen > 0 && score <= refLen
    ensures Confidence(score, refLen) >= 0.5
  {
    ConfidenceNonIncreasing(score, refLen, refLen);
    assert (refLen as real) / ((2 * refLen) as real) == 0.5;
  }

}
