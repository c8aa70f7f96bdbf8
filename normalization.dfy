/**
 * Character classes and the text clean-up that `canonical_id` and
 * `extract_id_from_lines` apply before scanning for identifiers
 * (src/text_extraction.py).
 */
module Normalization {

  /** An ASCII digit, what `[0-9]` and (on the cleaned text) `\d` accept. */
  predicate IsDigit(c: char) { '0' <= c <= '9' }

  /** A character the `[^0-9_]` substitution keeps. */
  predicate IsIdChar(c: char) { IsDigit(c) || c == '_' }

  predicate NotSpace(c: char) { c != ' ' }

  predicate AllDigits(s: string) { forall i :: 0 <= i < |s| ==> IsDigit(s[i]) }

  predicate AllIdChars(s: string) { forall i :: 0 <= i < |s| ==> IsIdChar(s[i]) }

  /** The letter-for-digit confusions the recogniser makes: `O`, `o` read for 0 and `I`, `l` for 1. */
  const Confusions: map<char, char> := map['O' := '0', 'o' := '0', 'I' := '1', 'l' := '1']

  function Unconfuse(c: char): char
  {
    if c in Confusions then Confusions[c] else c
  }

  /** `s.replace(x, y)` for one-character `x` and `y`. */
  function Replace(s: string, x: char, y: char): (r: string)
    ensures |r| == |s|
    ensures forall i :: 0 <= i < |s| ==> r[i] == if s[i] == x then y else s[i]
  {
    if s == [] then [] else [if s[0] == x then y else s[0]] + Replace(s[1..], x, y)
  }

  /** The chain of four `replace` calls of lines 24-25 and 90-91. */
  function ReplaceConfusions(s: string): string
  {
    Replace(Replace(Replace(Replace(s, 'O', '0'), 'o', '0'), 'I', '1'), 'l', '1')
  }

  /** The replace chain is the confusion table applied to each character. */
  lemma ReplaceConfusionsIsTableLookup(s: string)
    ensures |ReplaceConfusions(s)| == |s|
    ensures forall i :: 0 <= i < |s| ==> ReplaceConfusions(s)[i] == Unconfuse(s[i])
  {
  }

  /** Deletes every character that `keep` rejects (`re.sub(r"[^...]", "", s)`, `s.replace(" ", "")`). */
  function Filter(s: string, keep: char -> bool): (r: string)
    ensures |r| <= |s|
    ensures forall i :: 0 <= i < |r| ==> keep(r[i])
    ensures forall c :: c in r <==> c in s && keep(c)
    ensures (forall i :: 0 <= i < |s| ==> keep(s[i])) ==> r == s
    decreases |s|
  {
    if s == [] then [] else (if keep(s[0]) then [s[0]] else []) + Filter(s[1..], keep)
  }

  /**
   * Filtering distributes over concatenation: the kept characters of `a + b` are those of
   * `a` followed by those of `b`, in order and with repeats.
   */
  lemma {:induction false} FilterConcat(a: string, b: string, keep: char -> bool)
    ensures Filter(a + b, keep) == Filter(a, keep) + Filter(b, keep)
    decreases |a|
  {
    if a == [] {
      assert a + b == b;
    } else {
      var h := if keep(a[0]) then [a[0]] else [];
      assert (a + b)[0] == a[0] && (a + b)[1..] == a[1..] + b;
      calc {
        Filter(a + b, keep);
        h + Filter(a[1..] + b, keep);
        { FilterConcat(a[1..], b, keep); }
        h + (Filter(a[1..], keep) + Filter(b, keep));
        { AppendAssoc(h, Filter(a[1..], keep), Filter(b, keep)); }
        (h + Filter(a[1..], keep)) + Filter(b, keep);
        Filter(a, keep) + Filter(b, keep);
      }
    }
  }

  lemma AppendAssoc(x: string, y: string, z: string)
    ensures x + (y + z) == (x + y) + z
  {
  }

  /** A single character is kept exactly when `keep` accepts it. */
  lemma FilterChar(c: char, keep: char -> bool)
    ensures Filter([c], keep) == if keep(c) then [c] else []
  {
    assert [c][1..] == [];
  }

  /** Filtering first with a weaker class changes nothing once the stronger one is applied. */
  lemma {:induction false} FilterAbsorbs(s: string, p: char -> bool, q: char -> bool)
    requires forall c :: q(c) ==> p(c)
    ensures Filter(Filter(s, p), q) == Filter(s, q)
    decreases |s|
  {
    if s != [] {
      FilterAbsorbs(s[1..], p, q);
      if p(s[0]) {
        assert Filter(s, p) == [s[0]] + Filter(s[1..], p);
        assert Filter(s, p)[1..] == Filter(s[1..], p);
      } else {
        assert Filter(s, p) == Filter(s[1..], p);
      }
    }
  }

  /** The clean-up of `canonical_id` (lines 24-27): undo confusions, keep digits and underscores. */
  function Normalize(text: string): (t: string)
    ensures AllIdChars(t)
    ensures |t| <= |text|
    ensures AllIdChars(text) ==> t == text
  {
    ReplaceConfusionsIsTableLookup(text);
    assert AllIdChars(text) ==> ReplaceConfusions(text) == text;
    Filter(ReplaceConfusions(text), IsIdChar)
  }

  /** `replace` acts on each part of a concatenation separately. */
  lemma {:induction false} ReplaceConcat(a: string, b: string, x: char, y: char)
    ensures Replace(a + b, x, y) == Replace(a, x, y) + Replace(b, x, y)
    decreases |a|
  {
    if a == [] {
      assert a + b == b;
    } else {
      var h := [if a[0] == x then y else a[0]];
      assert (a + b)[0] == a[0] && (a + b)[1..] == a[1..] + b;
      calc {
        Replace(a + b, x, y);
        h + Replace(a[1..] + b, x, y);
        { ReplaceConcat(a[1..], b, x, y); }
        h + (Replace(a[1..], x, y) + Replace(b, x, y));
        { AppendAssoc(h, Replace(a[1..], x, y), Replace(b, x, y)); }
        (h + Replace(a[1..], x, y)) + Replace(b, x, y);
        Replace(a, x, y) + Replace(b, x, y);
      }
    }
  }

  lemma ReplaceConfusionsConcat(a: string, b: string)
    ensures ReplaceConfusions(a + b) == ReplaceConfusions(a) + ReplaceConfusions(b)
  {
    ReplaceConcat(a, b, 'O', '0');
    var a1, b1 := Replace(a, 'O', '0'), Replace(b, 'O', '0');
    ReplaceConcat(a1, b1, 'o', '0');
    var a2, b2 := Replace(a1, 'o', '0'), Replace(b1, 'o', '0');
    ReplaceConcat(a2, b2, 'I', '1');
    var a3, b3 := Replace(a2, 'I', '1'), Replace(b2, 'I', '1');
    ReplaceConcat(a3, b3, 'l', '1');
  }

  /** The clean-up works character by character: the cleaned `a + b` is cleaned `a` then cleaned `b`. */
  lemma NormalizeConcat(a: string, b: string)
    ensures Normalize(a + b) == Normalize(a) + Normalize(b)
  {
    ReplaceConfusionsConcat(a, b);
    FilterConcat(ReplaceConfusions(a), ReplaceConfusions(b), IsIdChar);
  }

  /**
   * One character is first mapped through the confusion table and then kept only when it
   * is a digit or `_`: `O`, `o` become `0`, `I`, `l` become `1`, and other letters vanish.
   */
  lemma NormalizeChar(c: char)
    ensures Normalize([c]) == if IsIdChar(Unconfuse(c)) then [Unconfuse(c)] else []
  {
    ReplaceConfusionsIsTableLookup([c]);
    assert ReplaceConfusions([c]) == [Unconfuse(c)];
    FilterChar(Unconfuse(c), IsIdChar);
  }

  /**
   * The clean-up of each OCR line in `extract_id_from_lines` (lines 90-93), which also
   * removes spaces before the `[^0-9_]` substitution; it is the same as `Normalize`.
   */
  function NormalizeLine(raw: string): (t: string)
    ensures t == Normalize(raw)
  {
    FilterAbsorbs(ReplaceConfusions(raw), NotSpace, IsIdChar);
    Filter(Filter(ReplaceConfusions(raw), NotSpace), IsIdChar)
  }

  /** The digit stream of the last-resort pass (lines 131-133): confusions undone, only `[0-9]` kept. */
  function DigitsOnly(raw: string): (t: string)
    ensures AllDigits(t)
    ensures t == Filter(Normalize(raw), IsDigit)
  {
    FilterAbsorbs(ReplaceConfusions(raw), IsIdChar, IsDigit);
    Filter(ReplaceConfusions(raw), IsDigit)
  }

}
