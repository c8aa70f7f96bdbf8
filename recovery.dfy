/**
 * How the callers use the engine (src/utils.py:69-71, app.py:36-38): the raw winner of
 * `extract_id_from_lines` is cleaned by `canonical_id` and then corrected against the
 * file name by `fix_with_filename`.
 */
module Recovery {
  import opened Wrappers
  import opened Patterns
  import opened Canonical
  import opened Correction
  import opened Extraction

  /** `fix_with_filename(canonical_id(extract_id_from_lines(lines, base)[0]), base)` */
  function RecoverId(lines: seq<string>, baseName: Option<string>): Option<string>
  {
    Corrected(CanonicalId(Extract(lines, baseName).id), baseName)
  }

  /** The composed pipeline yields `None` or `<digits>_1`. */
  lemma RecoveredIdIsCanonical(lines: seq<string>, baseName: Option<string>)
    ensures var r := RecoverId(lines, baseName); r.None? || IsCanonicalId(r.value)
  {
    var c := CanonicalId(Extract(lines, baseName).id);
    if Corrected(c, baseName) != c {
      DigitsWithSuffixIsCanonical(Reference(baseName).value);
    }
  }

  /** `canonical_id` leaves the engine's winner as it is. */
  lemma CanonicalIdKeepsWinner(lines: seq<string>, baseName: Option<string>)
    ensures CanonicalId(Extract(lines, baseName).id) == Extract(lines, baseName).id
  {
    ExtractedIdShape(lines, baseName);
    var id := Extract(lines, baseName).id;
    if id.Some? {
      CanonicalIdOfCanonical(id.value);
    }
  }

  /**
   * When the winner has as many digits as the file name's reference, the pipeline's
   * answer is the reference itself, whatever digits were read.
   */
  lemma RecoveredIdIsReferenceOnLengthMatch(lines: seq<string>, baseName: Option<string>)
    requires Reference(baseName).Some? && Extract(lines, baseName).id.Some?
    requires |Extract(lines, baseName).id.value| == |Reference(baseName).value| + 2
    ensures RecoverId(lines, baseName) == Some(Reference(baseName).value + "_1")
  {
    CanonicalIdKeepsWinner(lines, baseName);
    ExtractedIdShape(lines, baseName);
    CorrectedToReference(Extract(lines, baseName).id.value, baseName);
  }

  /**
   * When no line held a `\d{10,25}_1` token but the last resort found a window, the
   * pipeline returns exactly the reference followed by `_1`.
   */
  lemma LastResortRecoversReference(lines: seq<string>, baseName: Option<string>)
    requires |Candidates(lines)| == 0 && Extract(lines, baseName).id.Some?
    ensures Reference(baseName).Some?
    ensures RecoverId(lines, baseName) == Some(Reference(baseName).value + "_1")
  {
    ExtractedIdShape(lines, baseName);
    RecoveredIdIsReferenceOnLengthMatch(lines, baseName);
  }

}
