/** `fix_with_filename` (src/text_extraction.py:32-65). */
module Correction {
  import opened Wrappers
  import opened Normalization
  import opened Patterns

  /** The reference number a base name carries: its trailing `(\d+)_1$` digit run. */
  function Reference(baseName: Option<string>): (r: Option<string>)
    ensures baseName.None? ==> r.None?
    ensures r.Some? ==> 1 <= |r.value| && AllDigits(r.value)
  {
    if baseName.None? then None else TrailingDigits(baseName.value)
  }

  /**
   * What `fix_with_filename` returns: the reference digits followed by `_1` when both
   * strings end in `<digits>_1` and the two digit runs have one length; the
   * prediction unchanged otherwise.
   */
  function Corrected(predId: Option<string>, baseName: Option<string>): (r: Option<string>)
    ensures r == predId || (Reference(baseName).Some? && r == Some(Reference(baseName).value + "_1"))
    ensures r != predId ==>
              predId.Some? && TrailingDigits(predId.value).Some? && Reference(baseName).Some? &&
              |TrailingDigits(predId.value).value| == |Reference(baseName).value|
    ensures predId.Some? && TrailingDigits(predId.value).Some? && Reference(baseName).Some? &&
            |TrailingDigits(predId.value).value| == |Reference(baseName).value| ==>
              r == Some(Reference(baseName).value + "_1")
  {
    if predId.None? || baseName.None? then predId
    else
      match (TrailingDigits(baseName.value), TrailingDigits(predId.value))
      case (Some(ref), Some(num)) => if |num| != |ref| then predId else Some(ref + "_1")
      case _ => predId
  }

  /** Replaces every digit of the prediction's trailing run that differs from the reference's. */
  method FixWithFilename(predId: Option<string>, baseName: Option<string>) returns (r: Option<string>)
    ensures r == Corrected(predId, baseName)
  {
    if predId.None? || baseName.None? {
      return predId;
    }
    var m := TrailingDigits(baseName.value);
    if m.None? {
      return predId;
    }
    var ref := m.value;
    var m2 := TrailingDigits(predId.value);
    if m2.None? {
      return predId;
    }
    var num := m2.value;
    if |num| != |ref| {
      return predId;
    }
    var fixedDigits: string := [];
    for k := 0 to |num|
      invariant fixedDigits == ref[..k]
    {
      var a, b := num[k], ref[k];
      if a != b {
        fixedDigits := fixedDigits + [b];
      } else {
        fixedDigits := fixedDigits + [a];
      }
    }
    assert fixedDigits == ref;
    return Some(fixedDigits + "_1");
  }

  /** The digit run of a `<digits>_1` identifier is everything before its `_1`. */
  lemma TrailingDigitsOfCanonical(s: string)
    requires IsCanonicalId(s)
    ensures TrailingDigits(s) == Some(s[..|s| - 2])
  {
    assert s == [] + s[..|s| - 2] + "_1";
    TrailingDigitsOfId([], s[..|s| - 2]);
  }

  /** Correcting twice is correcting once. */
  lemma CorrectedIdempotent(predId: Option<string>, baseName: Option<string>)
    ensures Corrected(Corrected(predId, baseName), baseName) == Corrected(predId, baseName)
  {
    var r := Corrected(predId, baseName);
    if r != predId {
      var ref := Reference(baseName).value;
      DigitsWithSuffixIsCanonical(ref);
      TrailingDigitsOfCanonical(ref + "_1");
    }
  }

  /**
   * On a canonical prediction the correction keeps the length and the `_1`, and changes
   * only digits, each one to the reference's digit at that position.
   */
  lemma CorrectedOnlyRewritesDigits(p: string, baseName: Option<string>)
    requires IsCanonicalId(p)
    ensures Corrected(Some(p), baseName).Some?
    ensures var r := Corrected(Some(p), baseName).value;
            |r| == |p| && IsCanonicalId(r) && r[|p| - 2..] == p[|p| - 2..] &&
            forall i :: 0 <= i < |p| && r[i] != p[i] ==>
              i < |p| - 2 && Reference(baseName).Some? && r[i] == Reference(baseName).value[i]
  {
    TrailingDigitsOfCanonical(p);
    if Corrected(Some(p), baseName) != Some(p) {
      var ref := Reference(baseName).value;
      assert |p| == |ref| + 2;
      CorrectedToReference(p, baseName);
      SameShape(p, ref);
    }
  }

  /** `<ref>_1` differs from a `<digits>_1` of the same length only among the digits. */
  lemma SameShape(p: string, ref: string)
    requires IsCanonicalId(p) && 1 <= |ref| && AllDigits(ref) && |p| == |ref| + 2
    ensures var q := ref + "_1";
            |q| == |p| && IsCanonicalId(q) && q[|p| - 2..] == p[|p| - 2..] &&
            forall i :: 0 <= i < |p| && q[i] != p[i] ==> i < |p| - 2 && q[i] == ref[i]
  {
    var q := ref + "_1";
    DigitsWithSuffixIsCanonical(ref);
    assert q[|p| - 2..] == "_1" == p[|p| - 2..];
  }

  /** A `<digits>_1` prediction as long as the reference plus `_1` is replaced by the reference. */
  lemma CorrectedToReference(p: string, baseName: Option<string>)
    requires IsCanonicalId(p) && Reference(baseName).Some?
    requires |p| == |Reference(baseName).value| + 2
    ensures Corrected(Some(p), baseName) == Some(Reference(baseName).value + "_1")
  {
    TrailingDigitsOfCanonical(p);
  }

  /**
   * The correction replaces the whole prediction, not only its trailing digits, so a
   * prediction with text before its digit run comes back shorter.
   */
  lemma CorrectionDropsPrefix()
    ensures Corrected(Some("x7_1"), Some("5_1")) == Some("5_1")
  {
    TrailingDigitsOfId("x", "7");
    TrailingDigitsOfId([], "5");
    assert "x" + "7" + "_1" == "x7_1";
    assert [] + "5" + "_1" == "5_1";
  }

  /**
   * A single wrong digit is put right. The two digit strings are parameters fixed by the
   * precondition rather than literals in the body, which keeps the solver from expanding
   * the recursive scans over every character of the literals.
   */
  lemma CorrectionExample(num: string, ref: string)
    requires num == "160790797970200578" && ref == "160390797970200578"
    ensures Corrected(Some(num + "_1"), Some("reverseWaybill-" + ref + "_1")) == Some(ref + "_1")
  {
    ExampleDigits(num, ref);
    DigitsWithSuffixIsCanonical(num);
    TrailingDigitsOfId("reverseWaybill-", ref);
    CorrectedToReference(num + "_1", Some("reverseWaybill-" + ref + "_1"));
  }

  lemma ExampleDigits(num: string, ref: string)
    requires num == "160790797970200578" && ref == "160390797970200578"
    ensures AllDigits(num) && AllDigits(ref)
  {
  }

}
