# Payin-to-payout rule engine

This project models the rule engine of the insurance payout calculator in
`backend/main.py` and proves properties about it. The calculator reads policy
records that were extracted from an uploaded statement. For each record it
does four things:

1. It classifies the record's payin into one of four brackets (`classify_payin`).
2. It determines the line of business (LOB) from the segment text (`determine_lob`).
3. It looks up the first rule of the fixed decision table `FORMULA_DATA` that fires.
4. It computes the payout that the rule's PO text prescribes.

`apply_formula` does this record by record and produces one output row per
record. `process_files` does the following around it:

- rejects an empty extraction;
- wraps a single record into a list;
- annotates every record in place with `Payin_Value` and `Payin_Category`;
- counts the rows per formula in `formula_summary`.

The model follows the program's own shape:

| Module | File | What it holds |
|---|---|---|
| `Text` | `text.dfy` | ASCII `upper`, `lower` and `strip`; the `\s+` collapse; Python's `in` on strings |
| `Values` | `values.dfy` | Python values and records; `str()`, `float()` and truthiness; the faults a record can raise |
| `Payin` | `payin.dfy` | `classify_payin` and the four brackets |
| `LineOfBusiness` | `lob.dfy` | `determine_lob` |
| `Rules` | `rules.dfy` | `FORMULA_DATA`, the first-match scan (a method with a loop), the PO dispatch and clamp (a method), facts about the table |
| `Scenarios` | `scenarios.dfy` | Which rule fires for the segments the table treats specially |
| `Batch` | `batch.dfy` | `apply_formula`: the per-record body and the record loop, both as methods proved against `RowFor` |
| `Processing` | `process.dfy` | `process_files` up to rendering; the in-place annotation over an `array`; the `formula_summary` counting loop |
| `Walkthrough` | `walkthrough.dfy` | Whole rows, from a record as extracted to the row written for it |
| `Extract` | `extract.dfy` | The `[`…`]` slice of the model's reply |

The payin and payout are exact `real`s. Python's `float(str)` is a partial
parser that returns `Option<real>`. It accepts an optional sign, digits and
an optional fraction, with surrounding whitespace.

## Behaviour of the table worth knowing

Each point below is a fact about the code. Where a point names a member, that member proves it.

- A "TW TP" payin above 50 gets the `-5%` row of `FORMULA_DATA`. A payin of 55 pays 50.00% (`Walkthrough.TwThirdPartyAboveFifty`).
- The segment "CV upto 2.5 Tn" matches no rule. Every CV row's segment contains a `G` ("GVW", "GCV") and this segment does not, so the record passes its payin through as "No matching rule" (`Scenarios.CvUptoNoRule`).
- A plain "BUS" segment matches no rule. The BUS rows are for "SCHOOL BUS" and "STAFF BUS" only (`Scenarios.PlainBusNoRule`).
- The "SCHOOL BUS" rule never fires. `determine_lob` finds "SC" in the segment and returns TW before it tries BUS (`LineOfBusiness.SchoolBusIsTwoWheeler`, `Rules.SchoolBusRuleNeverFires`).
- The "PVT CAR TP" rule, whose remarks are "Zuno - 21", never fires for an annotated record. No bracket label is a substring of "Zuno - 21" (`Rules.ZunoRuleNeverFires`, `Walkthrough.PrivateCarThirdPartyRow`).
- The "PVT CAR TP" rule does fire when `apply_formula` gets a record without a category: the empty string is inside every remark (`Walkthrough.PrivateCarThirdPartyUncategorised`).
- `determine_lob` knows exactly the keywords of its six groups. A segment with none of them is "UNKNOWN" (`LineOfBusiness.DetermineLob`), and no rule fires for an "UNKNOWN" record (`Rules.UnknownMatchesNoRule`).
- The rule scan never looks at the insurer. The `INSURER` key of the MISD row is never read. The company name is only logged, written into the Excel title and copied into the metrics.
- A record whose remarks test fails on every row of its segment gets "No matching rule"; there is no second, looser pass.
- "No data after formula application" cannot be raised. `apply_formula` returns one row for each of the non-empty list's records (`Processing.OutcomeOkIff`).

## Model

| member | source | states |
|---|---|---|
| Payin.BracketOf | backend/main.py:273-280 | The bracket is "Below 20%" iff v ≤ 20, "21% to 30%" iff 20 < v ≤ 30, "31% to 50%" iff 30 < v ≤ 50, and "Above 50%" iff v > 50, so each boundary belongs to the lower bracket |
| Payin.CleanPayinText | backend/main.py:268 | The cleaned payin text contains no `%`, no space and no `-`; every character of it comes from `str(v)`, and every character of `str(v)` other than `%`, `-` and whitespace is kept |
| Payin.ClassifyPayin | backend/main.py:262-283 | The bracket always follows from the value; a number passes through unchanged; a payin given as text never comes out negative |
| Payin.TextPayinIsParsed | backend/main.py:267-271 | For text, the result is (0.0, Below 20%) exactly when the cleaned text does not parse, empty and "N/A" included; otherwise it is the parsed value with its bracket |
| Payin.NotAvailableNeverParses | backend/main.py:269 | Text that upper-cases to "N/A" never parses as a number, so the explicit check agrees with the parse-failure default |
| Payin.DigitsClassify | backend/main.py:267-280 | A digit string and the same string with a leading `-` classify alike, as the parsed number with its bracket |
| Payin.NatTextClassifies | backend/main.py:267-280 | The decimal text of a natural number n classifies as (n, bracket of n) |
| Payin.NegativeIntTextLosesSign | backend/main.py:268 | The text "-n" classifies as +n: cleaning removes the minus sign |
| Payin.CleanTextUnchanged | backend/main.py:268 | Text with no `%`, space or `-` and no surrounding whitespace is left exactly as it is by the cleaning |
| Payin.PercentSuffixDropped | backend/main.py:268 | Such text followed by `%` cleans to the text itself, in order and with every character kept |
| Payin.PercentTextClassifies | backend/main.py:266-280 | Such text that parses as x, followed by `%`, classifies as x with the bracket of x |
| Payin.NatPercentClassifies | backend/main.py:266-280 | The decimal text of a natural number n followed by `%` classifies as (n, bracket of n) |
| Payin.ThirtyFivePercent | backend/main.py:266-280 | "35%" classifies as 35.0 in "Payin 31% to 50%" |
| Values.ToFloat | backend/main.py:404 | `float(v)` raises on None, a list, or a string that does not parse, and on nothing else in the model; ints, floats and bools convert to their value, and a string that parses converts to the parsed number |
| Values.ParseFloat | backend/main.py:271 | A successful parse of text without `-` is never negative |
| Values.PyStr | backend/main.py:268 | — |
| Values.ParseIntText | backend/main.py:267-271 | The decimal text of every integer, negative ones included, parses back to that integer |
| Values.ParseFloatNeedsDigit | backend/main.py:271 | Text that parses as a number contains a digit |
| Values.DigitsValueOfNatText | backend/main.py:267-271 | Reading back the digits of a natural number's decimal text gives the number |
| LineOfBusiness.DetermineLob | backend/main.py:285-302 | The LOB returned has a keyword in the upper-cased segment, and no group tried before it has one; "UNKNOWN" means no group has one |
| LineOfBusiness.AnyInIff | backend/main.py:289 | `any(kw in s for kw in group)` holds iff some keyword of the group occurs in s |
| LineOfBusiness.ScMeansTwoWheeler | backend/main.py:289-290 | Any segment containing "SC" after upper-casing is TW |
| LineOfBusiness.SchoolBusIsTwoWheeler | backend/main.py:289-290 | "SCHOOL BUS", in any case, is classified TW |
| LineOfBusiness.StaffBusIsBus | backend/main.py:289-296 | "STAFF BUS" is classified BUS |
| LineOfBusiness.PvtCarKeywordSubsumed | backend/main.py:291 | Every segment holding "PVT CAR" also holds "CAR", so the first keyword of the group never decides anything alone |
| LineOfBusiness.NameInjective | backend/main.py:285-302 | Distinct LOBs have distinct names, so the LOB equality test of the rule scan compares LOBs |
| Rules.CleanSegment | backend/main.py:407 | — |
| Rules.RemarksAdmit | backend/main.py:432-437 | — |
| Rules.Fires | backend/main.py:422-437 | — |
| Rules.MatchedExplanation | backend/main.py:440-445 | — |
| Rules.MatchRule | backend/main.py:414-450 | The scan returns the first rule of `FORMULA_DATA` that fires, with its explanation; it returns None and "" when no rule fires |
| Rules.FirstFiring | backend/main.py:416-450 | The index found satisfies the LOB, segment and remarks tests, and no earlier rule does; None means no rule from the start index on fires |
| Rules.FirstFiringNone | backend/main.py:416-450 | When no rule of the table fires, the scan from the first rule finds none |
| Rules.MatchedPayout | backend/main.py:453-470 | The payout of a matched rule is never negative and never above a non-negative payin. It is the formula's value when that is not negative, and 0 otherwise |
| Rules.ComputePayout | backend/main.py:453-470 | The in-place multiply or subtract and the clamp compute the matched payout |
| Rules.FormulaOf | backend/main.py:457-468 | A recognised PO scales by 0.9 or 0.88 or deducts between 2 and 5 points; "90% of Payin" wins over any other text in the PO; the payin is left unchanged exactly when none of the seven texts it looks for occurs |
| Rules.Apply | backend/main.py:455-468 | A deduction of non-negative points never raises the payin; a factor between 0 and 1 keeps a non-negative payin between 0 and itself; "unchanged" returns the payin |
| Rules.EveryRuleHasFormula | backend/main.py:75-109 | Every PO text in the table is one that the dispatch recognises (never the "unchanged" fall-through) |
| Rules.DeductFormulas | backend/main.py:461-468 | "-2%", "-3%", "-4%" and "-5%" deduct 2, 3, 4 and 5 points; none of them is caught by an earlier test |
| Rules.ScaleFormulas | backend/main.py:457-460 | "90% of Payin" scales by 0.9 and "88% of Payin" by 0.88 |
| Rules.LessTwoFormula | backend/main.py:461-462 | "Less 2% of Payin" deducts 2 points |
| Rules.BracketRowDeducts | backend/main.py:79-105 | The row whose remarks are a bracket's label deducts 2, 3, 4 or 5 points, rising with the bracket |
| Rules.LabelContains | backend/main.py:437 | One bracket label contains another only when they are the same label |
| Rules.BracketRemarksAdmit | backend/main.py:432-437 | A bracket row's remarks admit that bracket's category and no other |
| Rules.BracketRowFires | backend/main.py:416-437 | A bracket row of the record's LOB whose segment is inside the record's fires exactly for the record's own bracket |
| Rules.LabelInjective | backend/main.py:273-280 | Distinct brackets have distinct labels |
| Rules.ZunoRuleNeverFires | backend/main.py:89 | The "Zuno - 21" row never fires for a record carrying a bracket category |
| Rules.SchoolBusRuleNeverFires | backend/main.py:99 | The "SCHOOL BUS" row never fires, whatever the segment and category |
| Rules.OnlyOwnBlockFires | backend/main.py:75-109 | A row fires only if it lies in the block of the record's own LOB |
| Rules.ScanSkipsEarlierBlocks | backend/main.py:416-427 | Scanning from the start of the table and scanning from the record's LOB block give the same rule |
| Rules.UnknownMatchesNoRule | backend/main.py:416-427 | No row of the table fires for a record whose line of business is "UNKNOWN" |
| Rules.ScanStopsAtBlockEnd | backend/main.py:416-427 | No row after the record's LOB block fires |
| Scenarios.BracketRowsScan | backend/main.py:79-105 | In a block of four bracket rows whose segment is inside the record's, the scan picks the row of the record's own bracket |
| Scenarios.TwThirdPartyMatches | backend/main.py:79-82 | For a TW third-party segment, the first firing rule is the "TW TP" row of the record's bracket |
| Scenarios.TwThirdPartyByBracket | backend/main.py:79-82 | "TW TP" is TW; its record is matched by its bracket's row, which deducts that bracket's points |
| Scenarios.TwTpSkipsOtherTwoWheelerRows | backend/main.py:76-77 | The "1+5" and "TW SAOD + COMP" rows never fire for a TW third-party segment |
| Scenarios.CvRowsNeedG | backend/main.py:92-96 | No CV row fires for a segment without a `G` |
| Scenarios.CvUptoNoRule | backend/main.py:92-96 | "CV upto 2.5 Tn" is CV and no rule fires for it |
| Scenarios.PlainBusNoRule | backend/main.py:99-101 | Plain "BUS" is BUS and no rule fires for it |
| Scenarios.PvtCarTpIsCar | backend/main.py:291-292 | "PVT CAR TP" is classified PVT CAR |
| Scenarios.PvtCarTpNoRule | backend/main.py:85-89 | A categorised "PVT CAR TP" record matches no rule |
| Scenarios.PvtCarTpUncategorisedMatches | backend/main.py:89 | With an empty category, the first rule that fires for "PVT CAR TP" is the "Zuno - 21" row |
| Batch.PayinOf | backend/main.py:404 | An annotated record reads its annotation; a record without `Payin_Value` reads 0; only a JSON value can make the read raise |
| Batch.CategoryOf | backend/main.py:405 | An annotated record reads back its annotation, stripped; a JSON string is read stripped; the category is "" when the key is absent, and the read raises exactly when the JSON holds a non-string there |
| Batch.SegmentOf | backend/main.py:403 | The segment is stripped, is "" when the key is absent, and a string segment is that string stripped |
| Batch.RemarkParts | backend/main.py:480-482 | There are no more parts than items, and a truthy first item gives the first part, its stripped text |
| Batch.RemarkPartsEmpty | backend/main.py:480-482 | There are no parts exactly when no item of the list is truthy |
| Batch.RemarkPartSource | backend/main.py:480-482 | Every part is the stripped text of a truthy item of the list; the function gives that item's index |
| Batch.RemarkPartsAppend | backend/main.py:480-482 | The parts keep the order of the items: the parts of `a + b` are those of `a` followed by those of `b` |
| Batch.RemarkText | backend/main.py:480-483 | A string remark stays as it is; a list without a truthy item gives ""; a list of one truthy item gives its stripped text |
| Batch.NoRuleExplanation | backend/main.py:476 | — |
| Batch.ErrorRow | backend/main.py:496-507 | The error row has payout and formula "Error" and payin 0, the segment "Unknown" when the record has none, and the exception's message as its explanation |
| Batch.RowFor | backend/main.py:402-507 | A row's payout is "Error" exactly when its formula column is, and an error row shows payin 0 and the remark "Processing Error" |
| Batch.ComputeRow | backend/main.py:402-507 | The body of the per-record `try` produces `RowFor(r)` |
| Batch.ApplyFormula | backend/main.py:394-509 | Returns exactly one row per record, in order, each depending on its own record alone; an empty input gives no rows |
| Batch.ErrorRowIff | backend/main.py:496-507 | A row's payout is "Error" iff reading the payin value or the category raised, and so is its formula column |
| Batch.RowFollowsFirstMatch | backend/main.py:453-476 | A row that did not raise keeps the segment and payin. With no firing rule it says "No matching rule" and passes the payin through; otherwise it names the first rule's PO, pays the clamped formula and explains the match |
| Batch.MatchedRow | backend/main.py:453-472 | The row of a record whose first firing rule is row k names that row's PO and pays its clamped formula |
| Batch.UnmatchedRowOf | backend/main.py:473-476 | A record for which no rule fires gets "No matching rule" with the payin unclamped |
| Batch.RowPayoutBounded | backend/main.py:470-474 | A payout never exceeds a non-negative payin and is not negative when the payin is not; a matched payout is never negative |
| Batch.RowFormulaListed | backend/main.py:471-505 | The formula column is always a PO of the table, "No matching rule" or "Error" |
| Batch.NoMatchIsNotAPo | backend/main.py:75-109 | No PO text in the table is "No matching rule" or "Error", so the formula column tells the three cases apart |
| Processing.Annotate | backend/main.py:533-536 | Annotation sets `Payin_Value` and `Payin_Category` from `classify_payin` of the `payin` field and leaves every other field as it was |
| Processing.UpdateRecords | backend/main.py:533-536 | The in-place loop over the array succeeds iff every element is a dict; then every record is updated; any element it changed was a dict, updated |
| Processing.AnnotatePayins | backend/main.py:533-536 | The annotation loop succeeds iff every element is a dict; then every record is annotated and nothing else changed |
| Processing.AnnotatedFields | backend/main.py:533-536 | After annotation, `apply_formula` reads back exactly the value and category `classify_payin` gave, and the same segment |
| Processing.AnnotatedRecordNeverFails | backend/main.py:533-539 | An annotated record never takes the error path of `apply_formula` |
| Processing.FormulaSummary | backend/main.py:570-573 | The counting loop lists each formula once, with a positive count equal to the number of rows that used it; the counts add up to the number of rows |
| Processing.SummaryCounts | backend/main.py:570-573 | The count stored for a formula is the number of rows that used it |
| Processing.SummaryTotal | backend/main.py:570-584 | The counts add up to the number of rows, which is `total_records` |
| Processing.SummaryWellFormed | backend/main.py:570-573 | Every formula has one entry, with a positive count |
| Processing.KeysCounted | backend/main.py:570-573 | A formula has an entry iff its count is positive |
| Processing.BumpLookup | backend/main.py:572-573 | `formula_summary[f] = get(f, 0) + 1` raises f's count by one and leaves the others alone |
| Processing.UniqueSegments | backend/main.py:586 | `unique_segments` is the number of distinct segments among the rows: at least 1 for a non-empty batch and at most the number of rows |
| Processing.SegmentSetIs | backend/main.py:586 | The set of segments collected row by row is the set of all rows' segments |
| Processing.MetricsOf | backend/main.py:569-589 | `total_records` is the number of rows; every formula's count in the summary is the number of rows that used it, the summary is well formed and its counts add up to `total_records`; `unique_segments` counts the distinct segments; the company name is kept; `avg_payin` is the sum of the records' payin values divided by their number, and is not negative when no payin is |
| Processing.ElementsOf | backend/main.py:523-528 | A dict becomes a one-element list and a list is kept; "No policy data found" is raised exactly for an empty list or a falsy scalar; a successful result is never empty |
| Processing.Outcome | backend/main.py:519-589 | A report keeps the extracted text, the company name and the rule table, and has as many rows as records, at least one, all counted in `total_records` |
| Processing.ProcessFiles | backend/main.py:511-589 | `process_files` up to rendering computes `Outcome`, annotating the records in place on an array |
| Processing.ReportOn | backend/main.py:539-589 | Applying the formulas and gathering the metrics give the report over `Map(RowFor, records)` |
| Processing.OutcomeOkIff | backend/main.py:519-542 | Processing succeeds iff the text is neither empty nor "[]", it parses, and it is one dict or a non-empty list of dicts; "No data after formula application" is never raised |
| Processing.ReportRows | backend/main.py:523-589 | A report has one annotated record and one row per element, in order, and no error rows; it keeps the text and company name |
| Processing.ReportSummary | backend/main.py:570-589 | A report's summary is well formed, every formula's count is the number of its rows that used it, the counts add up to `total_records`, and "Error" is not among its formulas |
| Processing.ReportAverage | backend/main.py:533-569 | Every record of a report carries an annotated payin value, and `avg_payin` is their sum divided by the number of records |
| Walkthrough.BracketDeductionRow | backend/main.py:416-491 | A record whose first firing rule is its bracket's deduction row pays its payin less that bracket's points, clamped at 0 |
| Walkthrough.TwThirdPartyRow | backend/main.py:79-82 | Whatever its payin, a TW third-party record pays its value less 2, 3, 4 or 5 points according to its bracket, clamped at 0 |
| Walkthrough.TwThirdPartyAboveFifty | backend/main.py:82 | A "TW TP" record with payin 55 is matched by "-5%" and pays 50 |
| Walkthrough.UnmatchedSegmentRow | backend/main.py:473-476 | "CV upto 2.5 Tn" and plain "BUS" records get "No matching rule", with the annotated payin passed through |
| Walkthrough.PrivateCarThirdPartyRow | backend/main.py:473-476 | A "PVT CAR TP" record, once annotated, gets "No matching rule" |
| Walkthrough.PrivateCarThirdPartyUncategorised | backend/main.py:89 | A "PVT CAR TP" record given to `apply_formula` with a value but no category is paid 90% by the "Zuno - 21" row |
| Extract.Find | backend/main.py:249 | `find` returns the first position of the character, or -1 when it is absent |
| Extract.RFind | backend/main.py:250 | `rfind` returns the last position of the character, or -1 when it is absent |
| Extract.SliceJsonArray | backend/main.py:249-252 | The result is never longer than the text; a text it changes becomes the span from the first `[` to the last `]`, which starts with `[` and ends with `]` |
| Extract.SliceTaken | backend/main.py:249-252 | When a `]` follows the first `[`, the slice runs from that `[` to the last `]` inclusive |
| Extract.SliceSkipped | backend/main.py:249-252 | Without a `[`, or with no `]` after the first `[`, the text is unchanged |
| Extract.SliceIdempotent | backend/main.py:249-252 | Slicing twice gives what slicing once gives |
| Text.Strip | backend/main.py:403-405 | `strip` leaves text with no leading or trailing whitespace, and leaves such text unchanged |
| Text.ContainsIff | backend/main.py:427-437 | Python's `w in s` holds iff w occurs at some position of s |
| Text.RemoveCharAppend | backend/main.py:268 | `replace(c, '')` distributes over concatenation, so it keeps the order and number of the other characters |
| Text.CollapseSpacesArePlain | backend/main.py:408-420 | The `\s+` collapse leaves no whitespace other than the plain space |
| Text.CollapseNoDoubleSpace | backend/main.py:408-420 | The `\s+` collapse never leaves two whitespace characters in a row |

## Left out

- The model call in `extract_text_from_file` is not modelled: the prompt, the image and PDF handling, and the reply. These are an external service. `process_files` takes the extracted text as a parameter.
- `json.loads` is not modelled. `process_files` takes its result as a parameter: `None` for text that does not parse, otherwise a dict, a list or a scalar.
- The markdown fence removal before the slice is not modelled. It is a regular-expression substitution.
- The HTTP endpoints, environment and client set-up, CORS and logging are not modelled. They hold no logic of the engine. Logging output is dropped.
- The Excel, CSV and JSON renderings of the report are not modelled. They are library calls. The report keeps the extracted text, records, rows, table and metrics.
- `f"{x:.2f}%"`: a row holds the payin and payout as reals, not as formatted text.
- Processing.MetricsOf: `avg_payin` is the exact mean of the payin values, without `round(…, 1)` or binary floating point.
- Payin.ClassifyPayin: payin values are exact reals, not binary doubles. Python rounds a parsed text to the nearest double, so text with more than about 16 significant digits can land in another bracket: Python reads "30.0000000000000001%" as 30.0, "Payin 21% to 30%", while the model reads a value above 30, "Payin 31% to 50%".
- Payin.ClassifyPayin: an integer payin too large for a double makes `float()` raise OverflowError, which the `except (ValueError, TypeError)` does not catch, so `process_files` fails. The model converts every integer exactly and does not fail there.
- Rules.MatchedPayout: payouts are computed exactly (`payin * 0.9`, `payin - 2`, …), without rounding to a double.
- Values.ToFloat: an integer too large for a double makes Python's `float()` raise OverflowError. At main.py:404 the `except` at main.py:496 catches it and the record gets an error row. The model converts every integer exactly, so `ToFloat` never raises on an int. Only a record given to `apply_formula` without passing through the annotation of `process_files` can carry such an int there.
- Payin.CleanPayinText: its own contract states which characters the cleaned text holds, not their order or number. Order and number are fixed by Payin.CleanTextUnchanged and Payin.PercentSuffixDropped for clean text and for clean text followed by `%`, and by Text.RemoveCharAppend for each replacement.
- Values.ParseFloat: the parser accepts a sign, digits, an optional fraction and surrounding whitespace, and returns the exact decimal value. Exponents, underscores, "inf" and "nan" are not modelled, nor rounding to a double.
- Values.PyStr: `str()` of a float uses the text the record carries. Nested dict values are not modelled. `repr` quoting and escapes are simplified.
- Text.Upper: `upper` and `lower` map the letters A-Z and a-z only. `strip` and `\s+` treat as whitespace the characters below code point 128 that Python does (space, tab, line feed, carriage return, vertical tab, form feed, and U+001C to U+001F); U+0085, U+00A0 and the other Unicode spaces are not whitespace in the model.
- Processing.AnnotatePayins: when an element is not a dict, the source raises out of `process_files` with the elements before it annotated. The model reports the failure, and its contract states only that each element is either unchanged or an annotated dict.
- The commented-out older table and the older `apply_formula` are not modelled. They are dead code.
- Insurer-specific rule selection is not modelled, because the code has none (see above).
- The `except (ValueError, TypeError)` around `classify_payin` is the parse failure branch of the model (`ParseFloat` returning `None`); the overflow it does not catch is noted above.
