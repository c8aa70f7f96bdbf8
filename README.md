# Waybill identifier recovery, modelled in Dafny

This project models the identifier-recovery engine of the OCR-waybills system
(`src/text_extraction.py`). The engine takes the noisy text lines that several OCR
passes read from a shipping label, plus the image's base name. It returns the waybill
identifier in its canonical form, `<digits>_1`, and a confidence between 0 and 1.

- **Normalisation** (module `Normalization`). The letter/digit confusions `O`, `o` → `0`
  and `I`, `l` → `1` are undone. The chain of `str.replace` calls is proved equal to a
  lookup in the confusion table. Then every character except `[0-9_]` is deleted. The
  per-line clean-up of `extract_id_from_lines` also deletes spaces first. It is proved
  identical to the clean-up of `canonical_id`.
- **Regular expressions** (module `Patterns`). `(\d+_1)`, `(\d{10,25}_1)` and `(\d+)_1$`
  are explicit scanners with Python's leftmost-match semantics. `re.search` is `Search`,
  `re.finditer` is `FindAll`, and `L.index("_1")` is `FindSuffix`. In each pattern the
  digit class is followed by `_`, so a match can only use the maximal digit run that
  starts at its position. `MatchAtIsRegexMatch` proves the scanner's predicate equal to
  the literal reading of the regex. For example, 30 digits before `_1` yield a
  `\d{10,25}_1` match of the last 25 digits (`DirectIdOfLongRun`).
- **Distance and confidence** (module `Distance`). `hamming_like` counts the differing
  common positions and adds twice the length difference. The confidence
  `max(0, 1 - score / (2·len(ref)))` is computed over the reals.
- **`canonical_id`** (module `Canonical`): the leftmost `\d+_1` token of the cleaned text.
- **`fix_with_filename`** (module `Correction`). The spec function `Corrected` says what it
  returns. The method `FixWithFilename` keeps the source's digit-by-digit loop and is
  proved to compute it.
- **`extract_id_from_lines`** (module `Extraction`). The function `Extract` gives the value
  computed stage by stage: reference, candidates, selection, last resort, confidence. The
  method `ExtractIdFromLines` and its stage methods keep the source's loops and are proved
  to compute `Extract`. The backup tier of lines 101-113 stays in the model.
  `FallbackNeverFires` proves it can never add a candidate: ten or more digits directly
  before the first `_1` always form a `\d{10,25}_1` match, which its guard excludes.
- **How callers compose the engine** (module `Recovery`). `src/utils.py` and `app.py` call
  `fix_with_filename(canonical_id(extract_id_from_lines(...)[0]), base)`. The lemmas show
  that this yields `None` or `<digits>_1`. They also show that it returns the file name's
  reference whenever the winner has the reference's length. That is always the case when
  the winner came from the last-resort window search.

The correction replaces the whole prediction with the reference digits and `_1`, so any
text before the prediction's trailing digit run is dropped (`CorrectionDropsPrefix`). The length is kept for canonical predictions, which is what the
callers pass (`CorrectedOnlyRewritesDigits`).

## Model

| member | source | states |
|---|---|---|
| `Normalization.Replace` | src/text_extraction.py:24-25 | `s.replace(x, y)` keeps the length and swaps exactly the characters equal to `x` |
| `Normalization.ReplaceConfusionsIsTableLookup` | src/text_extraction.py:24-25 | the four chained replacements act as the confusion table `O,o→0`, `I,l→1` applied to each character |
| `Normalization.ReplaceConfusions` | src/text_extraction.py:24-25 | defines the chain `.replace("O","0").replace("o","0").replace("I","1").replace("l","1")`, used by `canonical_id` and by both loops of the extractor (lines 90-91, 131-132) |
| `Normalization.ReplaceConcat` | src/text_extraction.py:24-25 | `replace` acts on each part of a concatenation separately |
| `Normalization.Filter` | src/text_extraction.py:27 | `re.sub(r"[^...]", "", s)` keeps only accepted characters, keeps every accepted character that occurs, never lengthens, and leaves an all-accepted string unchanged |
| `Normalization.FilterConcat` | src/text_extraction.py:27 | the kept characters of `a + b` are those of `a` followed by those of `b`, in order and with repeats |
| `Normalization.FilterChar` | src/text_extraction.py:27 | one character is kept exactly when it is accepted |
| `Normalization.FilterAbsorbs` | src/text_extraction.py:92-93 | removing spaces before keeping `[0-9_]` changes nothing, because the second filter is stronger |
| `Normalization.Normalize` | src/text_extraction.py:24-27 | the cleaned text holds only digits and `_`, is no longer than the input, and is the input itself when that is already clean |
| `Normalization.NormalizeConcat` | src/text_extraction.py:23-27 | the clean-up works character by character: cleaning `a + b` gives cleaned `a` then cleaned `b` |
| `Normalization.NormalizeChar` | src/text_extraction.py:23-27 | one character is mapped through the confusion table (`O`, `o` to `0`; `I`, `l` to `1`) and then kept only when it is a digit or `_` |
| `Normalization.NormalizeLine` | src/text_extraction.py:90-93 | the per-line clean-up of the extractor equals `canonical_id`'s clean-up |
| `Normalization.DigitsOnly` | src/text_extraction.py:131-133 | the last-resort stream is all digits and is the cleaned line with underscores dropped |
| `Patterns.RunEnd` | src/text_extraction.py:28 | the end of the maximal digit run from a position |
| `Patterns.RunStart` | src/text_extraction.py:107-110 | the start of the maximal digit run ending at a position, where the leftward walk stops |
| `Patterns.MatchAt` | src/text_extraction.py:28 | defines a match at `i` of `\d+_1`, `\d{10,25}_1` or `(\d+)_1$` (lines 28, 41, 96): a digit at `i`, the maximal digit run from `i` followed by `_1`, with 10 to 25 digits for the direct pattern and the `_1` ending the text for the trailing one |
| `Patterns.MatchAtIsRegexMatch` | src/text_extraction.py:28 | the scanner matches at `i` iff the regex accepts some digit count there, and that count is forced to be the whole run |
| `Patterns.Search` | src/text_extraction.py:28 | `re.search` returns the leftmost match position; `None` means no position matches |
| `Patterns.MatchText` | src/text_extraction.py:96-97 | a match's text is `<digits>_1`, 12 to 27 characters long for `\d{10,25}_1` |
| `Patterns.FindAll` | src/text_extraction.py:96 | every `re.finditer` match is `<digits>_1` (10 to 25 digits for `\d{10,25}_1`); there is no match iff `re.search` finds none, and the first one is the leftmost match |
| `Patterns.Yields` | src/text_extraction.py:96 | defines the texts `re.finditer` yields from a start: the leftmost match's text, then what it yields from the end of that match, nothing once no match is left |
| `Patterns.SuccessiveMatches` | src/text_extraction.py:96 | defines the start positions `re.finditer` visits from a start: the leftmost match, then the positions visited from the end of that match, none once no match is left |
| `Patterns.FindAllSound` | src/text_extraction.py:96 | the texts `re.finditer` yields are exactly the texts of the matches at a sequence of visited positions, one per position, in order, where each search resumes at the end of the previous match |
| `Patterns.SuccessiveMatchesAreLeftmost` | src/text_extraction.py:96 | each visited position is a match; the first is the leftmost at or after the start; each later one starts at or after the end of the previous match, with no match in between (so matches never overlap) |
| `Patterns.NoMatchAfterLast` | src/text_extraction.py:96 | no match starts after the end of the last match `re.finditer` yields, so it yields every non-overlapping leftmost match |
| `Patterns.DirectIdOfLongRun` | src/text_extraction.py:96-97 | ten or more digits followed by `_1` give exactly one `\d{10,25}_1` match: the last 25 digits (all of them when there are at most 25) and the `_1` |
| `Patterns.FindSuffix` | src/text_extraction.py:102-103 | `L.index("_1")` is the first occurrence; `None` iff `"_1" not in L` |
| `Patterns.TrailingSearch` | src/text_extraction.py:41-44 | `(\d+)_1$` matches iff the text ends in a digit and `_1`; the match starts where that digit run starts |
| `Patterns.TrailingMatchIsRunStart` | src/text_extraction.py:41-44 | the leftmost `(\d+)_1$` match ends right before the final `_1` and starts where the digit run before it starts |
| `Patterns.TrailingDigits` | src/text_extraction.py:41-50 | the group is the maximal digit run before the final `_1`; it is non-empty and all digits |
| `Patterns.TrailingDigitsOfId` | src/text_extraction.py:41-50 | a digit run after a non-digit (or nothing) and before a final `_1` is what the search returns |
| `Canonical.IdSearch` | src/text_extraction.py:28-29 | `\d+_1` is found iff some digit stands directly before a `_1` |
| `Canonical.IdSearchLeftmost` | src/text_extraction.py:28-29 | the leftmost `\d+_1` match ends at the first `_1` with a digit before it and starts where that digit run starts |
| `Canonical.CanonicalId` | src/text_extraction.py:15-29 | `None` gives `None`; a result exists iff the cleaned text has a digit before a `_1`; the result is the leftmost token: the digit run before the first such `_1`, with the `_1` |
| `Canonical.CanonicalIdOfCanonical` | src/text_extraction.py:20-29 | a canonical identifier is returned unchanged |
| `Canonical.CanonicalIdIdempotent` | src/text_extraction.py:15-29 | `canonical_id(canonical_id(x)) == canonical_id(x)` |
| `Correction.Reference` | src/text_extraction.py:77-82 | the reference is absent without a base name; when present it is one or more digits |
| `Correction.Corrected` | src/text_extraction.py:32-65 | the result is the reference digits + `_1` exactly when the prediction and base name both end in `<digits>_1` with runs of one length; otherwise the prediction unchanged |
| `Correction.FixWithFilename` | src/text_extraction.py:32-65 | the digit-by-digit loop returns exactly `Corrected`: the reference digits + `_1` when it corrects, the prediction unchanged in the four pass-through cases |
| `Correction.TrailingDigitsOfCanonical` | src/text_extraction.py:47-50 | the digit run of a canonical identifier is everything before its `_1` |
| `Correction.CorrectedIdempotent` | src/text_extraction.py:56-65 | `fix(fix(p, b), b) == fix(p, b)` |
| `Correction.CorrectedOnlyRewritesDigits` | src/text_extraction.py:52-65 | on a canonical prediction the length and the `_1` are kept, and every changed position is a digit that now equals the reference's digit |
| `Correction.CorrectedToReference` | src/text_extraction.py:52-65 | a canonical prediction with as many digits as the reference comes back as the reference digits + `_1` |
| `Correction.CorrectionDropsPrefix` | src/text_extraction.py:47-65 | a prediction with text before its digit run is replaced whole: `fix("x7_1", "5_1") == "5_1"` |
| `Correction.CorrectionExample` | src/text_extraction.py:32-65 | `160790797970200578_1` against `reverseWaybill-160390797970200578_1` becomes `160390797970200578_1` |
| `Distance.Mismatches` | src/text_extraction.py:10 | the generator sum counts at most one per position |
| `Distance.HammingLike` | src/text_extraction.py:4-12 | the distance is at least twice the length difference and at most the common length plus that |
| `Distance.HammingLikeCountsMismatches` | src/text_extraction.py:8-12 | the distance is the number of differing common positions plus `2·abs(la - lb)`; on equal lengths it is the Hamming distance |
| `Distance.HammingLikeSymmetric` | src/text_extraction.py:8-12 | `hamming_like(a, b) == hamming_like(b, a)` |
| `Distance.HammingLikeZeroIffEqual` | src/text_extraction.py:8-12 | the distance is 0 iff the strings are equal |
| `Distance.Confidence` | src/text_extraction.py:144-147 | the confidence lies in [0, 1]; it is 1 iff the score is 0 and 0 iff the score reaches `2·len(ref)` |
| `Distance.ConfidenceNonIncreasing` | src/text_extraction.py:147 | a larger score never gives a larger confidence |
| `Distance.ConfidenceAtLeastHalf` | src/text_extraction.py:146-147 | a score no larger than `len(ref)` gives confidence ≥ 0.5 |
| `Extraction.SplitHead` | src/text_extraction.py:98 | `s.split("_")[0]` is the longest prefix without `_` |
| `Extraction.SplitHeadOfCanonical` | src/text_extraction.py:97-98 | splitting a matched `<digits>_1` gives its digits |
| `Extraction.DirectCandidates` | src/text_extraction.py:95-99 | defines the direct tier of one cleaned line: for each `re.finditer(r"(\d{10,25}_1)", L)` text `cid`, in order, the candidate `(cid.split("_")[0], cid)` |
| `Extraction.DirectCandidatesWellFormed` | src/text_extraction.py:95-99 | every direct candidate has 10 to 25 digits and its id is those digits + `_1` |
| `Extraction.Reverse` | src/text_extraction.py:110 | `reversed` puts position `i` at position `len - 1 - i` |
| `Extraction.ReverseReverse` | src/text_extraction.py:106-110 | reversing the collected digits restores their order |
| `Extraction.Fallback` | src/text_extraction.py:101-113 | defines the backup tier of one cleaned line: nothing without `_1` or when `\d{10,25}_1` matches; otherwise the digit run directly left of the first `_1` plus `_1`, when that run has ten or more digits |
| `Extraction.LongRunIsDirectMatch` | src/text_extraction.py:102 | ten or more digits directly before a `_1` always give a `\d{10,25}_1` match |
| `Extraction.FallbackNeverFires` | src/text_extraction.py:101-113 | the backup tier never appends a candidate |
| `Extraction.LineCandidates` | src/text_extraction.py:95-113 | defines one cleaned line's candidates: its direct candidates followed by its backup candidates |
| `Extraction.Candidates` | src/text_extraction.py:88-113 | defines the candidate list after the first loop: each line, cleaned as in lines 90-93, contributes its candidates in line order |
| `Extraction.CandidatesWellFormed` | src/text_extraction.py:88-113 | every collected candidate has 10 to 25 digits and is its digits + `_1` |
| `Extraction.Score` | src/text_extraction.py:119 | defines a candidate's score: `hamming_like` of its numeric part and the reference |
| `Extraction.FirstClosest` | src/text_extraction.py:115-122 | with a reference, the winner has the minimum `hamming_like` score, and every earlier candidate scores strictly more |
| `Extraction.FirstLongest` | src/text_extraction.py:123-126 | without a reference, the winner's numeric part is the longest, and every earlier one is strictly shorter |
| `Extraction.Closest` | src/text_extraction.py:118-122 | the strict-`<` scan has a result iff there is a candidate |
| `Extraction.ClosestIsFirstClosest` | src/text_extraction.py:118-122 | the strict-`<` scan keeps exactly the first candidate of minimum score |
| `Extraction.ClosestExtend` | src/text_extraction.py:119-122 | one more scored item replaces the best only when strictly closer |
| `Extraction.Keep` | src/text_extraction.py:119-121 | one scan step always holds a best; it is the old best or the new candidate, and its score never rises |
| `Extraction.LineWindows` | src/text_extraction.py:134-137 | defines one line's last-resort windows: every `m`-character slice of the digit stream, by start offset, as `(seg, seg + "_1")`; none when the stream is shorter than `m` (the `continue` of line 134) |
| `Extraction.WindowCandidates` | src/text_extraction.py:129-141 | defines the windows scored by the last resort: each line's windows, in line order |
| `Extraction.LineWindowsWellFormed` | src/text_extraction.py:134-137 | every window of one line is exactly `len(ref)` digits + `_1` |
| `Extraction.WindowCandidatesWellFormed` | src/text_extraction.py:129-141 | every last-resort window over all lines is `len(ref)` digits + `_1` |
| `Extraction.ExtractedIdShape` | src/text_extraction.py:68-149 | a returned id is `<digits>_1`: 10 to 25 digits when candidates exist, otherwise there is a reference and exactly `len(ref)` digits |
| `Extraction.ExtractedConfidence` | src/text_extraction.py:143-147 | `conf` is present iff there is a reference and an id; the score is `hamming_like(id digits, ref)` and `conf` is its confidence |
| `Extraction.LastResortConfidenceAtLeastHalf` | src/text_extraction.py:129-147 | a last-resort winner is never reported below confidence 0.5 |
| `Extraction.Select` | src/text_extraction.py:115-141 | defines the `(best_id, best_score)` pair: with candidates, the first of minimum `hamming_like` to the reference and its score, or the first longest and no score when there is no reference; otherwise, when a reference exists, the first closest reference-length window and its score; otherwise nothing |
| `Extraction.Extract` | src/text_extraction.py:68-149 | defines the value `extract_id_from_lines` returns: the reference from the base name, the selected id, and the confidence of its score when both a reference and a score exist |
| `Extraction.CollectCandidates` | src/text_extraction.py:88-113 | the per-line loop appends exactly every line's direct and backup candidates, in order |
| `Extraction.ScanLine` | src/text_extraction.py:89-113 | one line's clean-up and both tiers append exactly that line's direct and backup candidates |
| `Extraction.ScanDirect` | src/text_extraction.py:96-99 | the `finditer` loop appends `(cid.split("_")[0], cid)` for each match, in order |
| `Extraction.ScanBackup` | src/text_extraction.py:101-113 | the leftward walk from the first `_1` collects exactly the digit run before it |
| `Extraction.ClosestToReference` | src/text_extraction.py:115-122 | the scoring loop returns the first candidate of minimum distance and that distance |
| `Extraction.AlignWindows` | src/text_extraction.py:129-141 | the last-resort loops keep the first closest window over all lines; they keep none when no line is long enough |
| `Extraction.AlignLine` | src/text_extraction.py:136-141 | the window loop of one line extends the first-closest scan by that line's windows in offset order |
| `Extraction.AlignStep` | src/text_extraction.py:136-141 | scoring the window at offset `i` is one step of the first-closest scan over the windows in order |
| `Extraction.ExtractIdFromLines` | src/text_extraction.py:68-149 | the procedure returns `Extract`'s id and confidence; the id is `<digits>_1`; `conf` is present iff a reference exists and an id was chosen, and then lies in [0, 1] |
| `Recovery.RecoverId` | src/utils.py:69-71 | defines the callers' composition: `fix_with_filename(canonical_id(extract_id_from_lines(lines, base)[0]), base)` |
| `Recovery.RecoveredIdIsCanonical` | src/utils.py:69-71 | the composed pipeline yields `None` or `<digits>_1` |
| `Recovery.CanonicalIdKeepsWinner` | src/utils.py:69-70 | `canonical_id` returns the extractor's winner unchanged |
| `Recovery.RecoveredIdIsReferenceOnLengthMatch` | src/utils.py:69-71 | when the winner has `len(ref)` digits, the pipeline returns the reference + `_1` |
| `Recovery.LastResortRecoversReference` | src/utils.py:69-71 | when only the last resort found a window, the pipeline returns exactly the reference + `_1` |

## Left out

- Image loading, preprocessing, the OCR engines, the Streamlit UI and the batch harness
  are not part of this model. `src/preprocessing.py`, `src/ocr_engine.py`, `app.py` and
  the rest of `src/utils.py` are outside it; the OCR output is an arbitrary `seq<string>`.
- Floating point: the confidence is computed over Dafny's `real`, not IEEE doubles.
- `$` in `(\d+)_1$` is modelled as the end of the string. Python also lets it match
  before a final newline; that case is not modelled.
- `\d` and `isdigit` are modelled as the ASCII digits. On the cleaned lines only ASCII
  digits remain, but on a raw base name or prediction Python's `\d` would also accept
  other Unicode digits.
- `canonical_id` takes an optional string; the `str(text)` coercion of non-string
  arguments is not modelled.
- The extractor's `base_name=None` default is an explicit `Option` argument.
