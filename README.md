# Alzheimer's prediction page: decision logic in Dafny

This project models the decision logic of the MRI prediction page of an
Alzheimer's prediction web application (`streamlit_pages/_predict_alzheimer.py`).
It covers four parts:

- **Input validation gate.** The phone number check (the regular expression
  `^\+?\d{10,15}$` under `re.match`), the name check (every character a letter
  or whitespace), and the presence check (no falsy field). It also covers the
  short-circuit `and` chain that runs them in the order name, phone, presence
  and shows one error banner for the first that fails.
- **Class selection.** `np.argmax` over the first row of the classifier's
  output. The first of several equal maxima wins.
- **Condition labels.** The `CONDITION_LABELS` table, looked up with a default
  of "Unknown Condition".
- **Report text.** What `generate_pdf` writes on the page: the title, the four
  patient lines, the diagnosis, and then either the eight precautions or the
  congratulation line. A `PdfDocument` class stands for the FPDF object. Each
  `cell`, `multi_cell` and `ln` call appends one entry to its entry list;
  `add_page` and `set_font` change the page count and the current font. The
  precautions are written by a loop.

Files:

- `wrappers.dfy` holds `Option`.
- `char_classes.dfy` holds Python's `isspace`, `isalpha` and the `\d` class.
- `validation.dfy` holds the validators and the gate.
- `prediction.dfy` holds the argmax and the label table.
- `report.dfy` holds the document object, the report layout, and the lemmas
  about the lines a reader sees.

Four consequences of the code that a reader might not expect:

- Validation stops at the first failing check. The `and` chain at line 148
  never calls the later validators, so one banner shows even when several
  fields are wrong (`Validation.GateShowsAtMostOneError`,
  `Validation.GateReportsFirstFailure`).
- Every label except "No Dementia" gets the full precautions section,
  "Unknown Condition" included, since line 107 only tests for "No Dementia"
  (`Report.UnknownConditionGetsPrecautions`).
- An empty contact is reported as an invalid phone number, not as a missing
  field, because the phone check runs before the presence check
  (`Validation.EmptyContactReportedAsInvalidPhone`).
- The age widget accepts 0 (line 142), yet the presence check rejects an age
  of 0 as a missing field, because 0 is falsy (`Validation.AgeZeroIsMissing`).

Python's `$` without the MULTILINE flag also matches just before a final
`"\n"`. The model keeps that behaviour: `"+12345678901\n"` is accepted and a
string with two trailing newlines is not.

## Model

| member | source | states |
|---|---|---|
| `CharClasses.IsSpace` | streamlit_pages/_predict_alzheimer.py:46 | `char.isspace()`: the full list of code points Python treats as whitespace; none is an ASCII letter or digit |
| `CharClasses.IsAlpha` | streamlit_pages/_predict_alzheimer.py:46 | `char.isalpha()` on the Latin-1 range; no letter is whitespace, so the two tests at line 46 are disjoint |
| `CharClasses.IsDecimalDigit` | streamlit_pages/_predict_alzheimer.py:38 | the `\d` class; a digit is neither a letter nor whitespace, which is why a name holding a digit fails `validate_name` |
| `Validation.DigitRun` | streamlit_pages/_predict_alzheimer.py:38 | the digits `\d{10,15}` consumes end where the run of digits ends: every position in the run is a digit and the next one is not |
| `Validation.DollarMatchesAt` | streamlit_pages/_predict_alzheimer.py:38 | `$` without MULTILINE matches only at the end of the string or just before a final newline: what is left from that position is empty or a single newline |
| `Validation.ValidatePhoneNumber` | streamlit_pages/_predict_alzheimer.py:36-42 | an accepted number is 10 to 17 characters long; `PhoneValidatorMatchesPattern` proves it accepts exactly the language of `^\+?\d{10,15}$` |
| `Validation.AcceptedPhoneMatchesPattern` | streamlit_pages/_predict_alzheimer.py:36-42 | every accepted contact splits into an optional `+`, 10 to 15 digits and an optional final newline |
| `Validation.PatternPhoneAccepted` | streamlit_pages/_predict_alzheimer.py:36-42 | every optional `+`, followed by 10 to 15 digits and an optional final newline, is accepted |
| `Validation.PhoneValidatorMatchesPattern` | streamlit_pages/_predict_alzheimer.py:36-42 | the phone check accepts exactly the language of `^\+?\d{10,15}$` under `re.match` |
| `Validation.PhoneExamplesAccepted` | streamlit_pages/_predict_alzheimer.py:38-39 | "+12345678901" is accepted, and so is the same string with a trailing newline |
| `Validation.PhoneExamplesBounds` | streamlit_pages/_predict_alzheimer.py:38-39 | exactly 10 and exactly 15 digits are accepted |
| `Validation.PhoneExamplesWrongLength` | streamlit_pages/_predict_alzheimer.py:38-39 | 9 digits, 16 digits and the empty string are rejected |
| `Validation.PhoneExamplesSeparator` | streamlit_pages/_predict_alzheimer.py:38-39 | a space or a dash among the digits is rejected |
| `Validation.PhoneExamplesDoubled` | streamlit_pages/_predict_alzheimer.py:38-39 | a second `+` or a second trailing newline is rejected |
| `Validation.AcceptedPhoneCharacters` | streamlit_pages/_predict_alzheimer.py:38 | an accepted contact holds nothing but digits, apart from a leading `+` and a final newline |
| `Validation.ValidateName` | streamlit_pages/_predict_alzheimer.py:44-49 | the name check scans left to right and returns true iff every character is a letter or whitespace |
| `Validation.NameWithDigitRejected` | streamlit_pages/_predict_alzheimer.py:44-49 | a name with a digit at any position is rejected |
| `Validation.ValidateNameConcat` | streamlit_pages/_predict_alzheimer.py:46 | a concatenated name is valid iff both parts are |
| `Validation.NamesAccepted` | streamlit_pages/_predict_alzheimer.py:44-49 | the empty name passes vacuously, and "Jane Doe" passes |
| `Validation.NamesRejected` | streamlit_pages/_predict_alzheimer.py:44-49 | "John123" and "O'Brien" are rejected |
| `Validation.ValidateInput` | streamlit_pages/_predict_alzheimer.py:51-56 | for a contact that passed the phone check, the presence check passes iff the name is non-empty, the age is not 0 and a scan is uploaded: in the gate its contact test can never fail |
| `Validation.AgeZeroIsMissing` | streamlit_pages/_predict_alzheimer.py:51-56 | an age of 0 is falsy, so the presence check fails whatever the other fields hold |
| `Validation.ErrorMessage` | streamlit_pages/_predict_alzheimer.py:40-54 | each validator has its own banner (lines 40, 47 and 54); the three texts differ, so the banner shown identifies the check that failed |
| `Validation.RunInOrder` | streamlit_pages/_predict_alzheimer.py:148 | the validators that ran are a prefix of the chain; on success all ran and no banner shows; on failure exactly the last one's banner shows |
| `Validation.RunInOrderStopsAtFirstFailure` | streamlit_pages/_predict_alzheimer.py:148 | every validator called before the last one passed, and when the chain fails the last one failed |
| `Validation.RunInOrderPassesIff` | streamlit_pages/_predict_alzheimer.py:148 | the chain passes iff every validator in it passes |
| `Validation.Gate` | streamlit_pages/_predict_alzheimer.py:148 | the checks run in the order name, phone, presence, stopping early, and at most one banner shows; `GatePassesExactlyValidSubmissions` states when it passes |
| `Validation.GatePassesExactlyValidSubmissions` | streamlit_pages/_predict_alzheimer.py:148 | processing starts iff the name is letters and whitespace, the contact matches the phone pattern, and no field is falsy |
| `Validation.GateShowsAtMostOneError` | streamlit_pages/_predict_alzheimer.py:148 | a rejected submission shows exactly one banner, and an accepted one shows none |
| `Validation.GateReportsFirstFailure` | streamlit_pages/_predict_alzheimer.py:148 | the banner shown is that of the first failing check in the order name, phone, presence, and no later check is called |
| `Validation.EmptyContactReportedAsInvalidPhone` | streamlit_pages/_predict_alzheimer.py:148 | with a valid name, an empty contact shows the phone banner, and the presence check is never called |
| `Validation.MissingFieldBlamesNameAgeOrScan` | streamlit_pages/_predict_alzheimer.py:148 | the "All fields are required!" banner means an empty name, an age of 0 or no scan; the contact is never empty then |
| `Validation.BadNameStopsGate` | streamlit_pages/_predict_alzheimer.py:148 | a name with a digit stops the gate at the name check, whatever the other fields hold |
| `Validation.GateAcceptsJaneDoe` | streamlit_pages/_predict_alzheimer.py:148 | "Jane Doe", age 70, "+12345678901", with a scan, passes the gate |
| `Validation.GateStopsJohn123` | streamlit_pages/_predict_alzheimer.py:148 | "John123" with otherwise valid fields shows only the name banner |
| `Prediction.ArgMax` | streamlit_pages/_predict_alzheimer.py:69 | the index is inside the row, holds a maximum, and every earlier score is strictly smaller |
| `Prediction.ArgMaxUnique` | streamlit_pages/_predict_alzheimer.py:69 | any index that holds a maximum with only smaller scores before it is the one returned |
| `Prediction.ArgMaxTieGoesToLowest` | streamlit_pages/_predict_alzheimer.py:69 | of two equal top scores the lower index wins |
| `Prediction.PredictClass` | streamlit_pages/_predict_alzheimer.py:66-69 | there is a class iff the output has a non-empty first row; the class is the argmax of that row |
| `Prediction.PredictClassIgnoresLaterRows` | streamlit_pages/_predict_alzheimer.py:69 | rows after the first never change the class |
| `Prediction.ConditionLabel` | streamlit_pages/_predict_alzheimer.py:153-154 | the label is one of the five labels, and it is "Unknown Condition" iff the index is outside 0..3 |
| `Prediction.ConditionLabelTable` | streamlit_pages/_predict_alzheimer.py:153-154 | 0, 1, 2 and 3 map to Mild, Moderate, No and Very Mild Dementia; 99 and -1 map to "Unknown Condition" |
| `Prediction.NoDementiaOnlyForIndexTwo` | streamlit_pages/_predict_alzheimer.py:153-154 | the label is "No Dementia" iff the index is 2 |
| `Prediction.ConditionLabelInjective` | streamlit_pages/_predict_alzheimer.py:153 | the four classes have four different labels |
| `Prediction.FourScoresGiveKnownLabel` | streamlit_pages/_predict_alzheimer.py:151-154 | a four-score output always yields a clinical label, never "Unknown Condition" |
| `Report.NatToDecimal` | streamlit_pages/_predict_alzheimer.py:96 | `str` of a natural number is a non-empty string of digits, with a leading zero only for 0 |
| `Report.IntToDecimal` | streamlit_pages/_predict_alzheimer.py:96 | `str(age)`: non-empty, a leading `-` exactly for a negative age, digits after it; `IntToDecimalInjective` proves distinct ages print differently |
| `Report.DecimalRoundTrip` | streamlit_pages/_predict_alzheimer.py:96 | reading back the printed digits gives the number |
| `Report.IntToDecimalInjective` | streamlit_pages/_predict_alzheimer.py:96 | two ages with the same "Age:" text are the same age |
| `Report.PatientEntries` | streamlit_pages/_predict_alzheimer.py:91-99 | seven entries: the centred title in the title font, a break, the four patient lines and a break |
| `Report.FieldEntries` | streamlit_pages/_predict_alzheimer.py:94-98 | the four patient lines, each a left-aligned cell in the body font; `PatientText` gives their text in the order name, age, gender, contact |
| `Report.FieldText` | streamlit_pages/_predict_alzheimer.py:95-98 | the four patient cells read as the name, age, gender and contact lines, in that order |
| `Report.DiagnosisEntries` | streamlit_pages/_predict_alzheimer.py:101-105 | the heading in the section font, then a body-font line ending with the condition, then a break |
| `Report.BulletEntries` | streamlit_pages/_predict_alzheimer.py:121-122 | one justified body-font block per item, whose text is "- " followed by that item; `BulletText` gives their text in order |
| `Report.AdviceEntries` | streamlit_pages/_predict_alzheimer.py:107-125 | ten entries ending in a break when precautions are printed, one congratulation cell and no break for "No Dementia"; `AdviceText` gives its text |
| `Report.ReportEntries` | streamlit_pages/_predict_alzheimer.py:91-125 | the whole page: twenty entries, or eleven for "No Dementia", starting with the centred title; `GenerateReport` writes exactly these and `ReportLayout` gives their text |
| `Report.PdfDocument.constructor` | streamlit_pages/_predict_alzheimer.py:89 | a new document has no page, no font and nothing written |
| `Report.PdfDocument.AddPage` | streamlit_pages/_predict_alzheimer.py:90 | adds one page and leaves everything else alone |
| `Report.PdfDocument.SetFont` | streamlit_pages/_predict_alzheimer.py:91 | makes the given family, style and size the current font |
| `Report.PdfDocument.Cell` | streamlit_pages/_predict_alzheimer.py:92 | appends one text cell in the current font; needs a font |
| `Report.PdfDocument.MultiCell` | streamlit_pages/_predict_alzheimer.py:122 | appends one justified text block in the current font, `multi_cell`'s default alignment |
| `Report.PdfDocument.Ln` | streamlit_pages/_predict_alzheimer.py:93 | appends one vertical break of the given height |
| `Report.WritePatientSection` | streamlit_pages/_predict_alzheimer.py:91-99 | appends the centred title, a break, the four patient lines and a break, and leaves the body font current |
| `Report.WriteDiagnosisSection` | streamlit_pages/_predict_alzheimer.py:101-105 | appends "Diagnosis:" in the section font, the predicted condition in the body font, and a break |
| `Report.WriteBullets` | streamlit_pages/_predict_alzheimer.py:121-122 | the loop appends one "- " block per item, in list order, and nothing else |
| `Report.WriteAdviceSection` | streamlit_pages/_predict_alzheimer.py:107-125 | appends the precautions heading, one bullet per precaution in list order and a break, or the congratulation line for "No Dementia"; either way the body font is current afterwards |
| `Report.GenerateReport` | streamlit_pages/_predict_alzheimer.py:87-125 | a fresh one-page document holds exactly the report's entries, in order, with the body font current |
| `Report.TextOfAppend` | streamlit_pages/_predict_alzheimer.py:92-125 | the text of a document written in two parts is the text of the first part followed by that of the second |
| `Report.BulletText` | streamlit_pages/_predict_alzheimer.py:121-122 | the bullet cells read as "- " and each item, in the order of the list |
| `Report.PatientText` | streamlit_pages/_predict_alzheimer.py:92-98 | the patient block reads as the title, then the name, age, gender and contact lines in that order |
| `Report.DiagnosisText` | streamlit_pages/_predict_alzheimer.py:102-104 | the diagnosis block reads "Diagnosis:", then "Predicted Condition: " and the label |
| `Report.AdviceText` | streamlit_pages/_predict_alzheimer.py:107-125 | the last block reads as "Precautions:" and the eight bullets, or the congratulation line alone |
| `Report.ReportLayout` | streamlit_pages/_predict_alzheimer.py:91-125 | the report's lines are the seven header lines followed by the advice lines |
| `Report.BulletLinesAreBullets` | streamlit_pages/_predict_alzheimer.py:122 | every printed precaution counts as a bullet |
| `Report.HeaderHasNoBullets` | streamlit_pages/_predict_alzheimer.py:92-104 | no header line is a bullet, whatever the patient's fields hold |
| `Report.ReportBullets` | streamlit_pages/_predict_alzheimer.py:107-125 | the report's bullets are exactly the eight precautions in list order when the condition is not "No Dementia", and there are none otherwise |
| `Report.HeaderLacksPrecautionsHeading` | streamlit_pages/_predict_alzheimer.py:92-104 | no header line equals "Precautions:" |
| `Report.PrecautionsHeadingIff` | streamlit_pages/_predict_alzheimer.py:107-109 | "Precautions:" appears iff the condition is not "No Dementia" |
| `Report.HeaderLacksCongratulations` | streamlit_pages/_predict_alzheimer.py:92-104 | no header line equals the congratulation line |
| `Report.BulletLinesLackCongratulations` | streamlit_pages/_predict_alzheimer.py:122 | no bullet equals the congratulation line |
| `Report.CongratulationsIff` | streamlit_pages/_predict_alzheimer.py:124-125 | the congratulation line appears iff the condition is "No Dementia", and then it is the last of eight lines |
| `Report.ReportWithPrecautions` | streamlit_pages/_predict_alzheimer.py:104-122 | any condition other than "No Dementia" gives sixteen lines: the condition line, then "Precautions:" and the eight bullets in order |
| `Report.ReportForNoDementiaClass` | streamlit_pages/_predict_alzheimer.py:107-125 | for class 2 the report has eight lines: the condition line says "No Dementia", the last line is the congratulation, and there are no bullets |
| `Report.ReportForMildDementiaClass` | streamlit_pages/_predict_alzheimer.py:107-125 | for class 0 the report says "Mild Dementia" and ends with "Precautions:" and the eight precautions in order |
| `Report.UnknownConditionGetsPrecautions` | streamlit_pages/_predict_alzheimer.py:107 | an index outside the table yields "Unknown Condition", and that report still lists all eight precautions |

## Left out

- Database connection and insert (`_predict_alzheimer.py` lines 13-25 and 74-84), and schema creation (`create_db.py`, `streamlit_app.py` lines 21-38): external I/O. The schemas also disagree with each other: the insert names `diagnosis_condition`, `create_db.py` declares `condition`, and `streamlit_app.py` creates a different table.
- Loading the model and `model.predict` (lines 29-33 and 68): an opaque TensorFlow call. Only the argmax on its output is modelled.
- `preprocess_image` (lines 59-63): PIL resampling and floating-point division.
- Embedding the scan image and writing and reading the PDF file (lines 127-135): file I/O inside FPDF. As written, line 128 uses `mri_image`, a name `generate_pdf` does not define. Python would raise `NameError` there, so `generate_pdf` as written never returns a report. The model covers the text the code writes before that point, and the report lemmas describe that text.
- The end-to-end `prediction_page` flow after the gate (lines 149-164). It cannot run as written: `insert_data` takes six arguments but gets five (lines 74 and 157); its SQL has six placeholders but binds five values (lines 78-79); `generate_pdf` takes five arguments but gets six (lines 87 and 163). The gate, the argmax, the label lookup and the report text are modelled separately.
- The Streamlit widgets, banners, page navigation, CSS and background video (`streamlit_app.py`, `config.py`): UI. An error banner is modelled only as its text in `GateResult.shown`.
- The news page (`_latest_news.py`) and the home page text (`_home_page.py`): an HTTP client and static text.
- `CharClasses.IsAlpha`: recognises letters only in the Basic Latin and Latin-1 blocks, while Python's `isalpha` covers all Unicode letter categories. A name with letters above U+00FF (Greek or Cyrillic, say) is rejected here but accepted by the source.
- `CharClasses.IsDecimalDigit`: recognises only ASCII `0`-`9`, while Python's `\d` on a `str` matches any Unicode decimal digit.
- `Prediction.ArgMax`: scores are integers, not floats. NaN, which `np.argmax` treats as the maximum, is not modelled.
- `Report.PdfDocument`: page geometry is not modelled. That covers coordinates, automatic page breaks and how `multi_cell` wraps long text over several physical lines; each call is one entry. Font encoding is not modelled either.
- `Report.CongratulationsIff`, `Report.ReportForNoDementiaClass`: these describe the text the code tries to write. The congratulation line starts with U+1F389, which lies outside the Latin-1 range of the core Arial font. fpdf2 raises an encoding error inside `cell` at line 125, and PyFPDF 1.7 raises when encoding in `output` at line 132. Either way no "No Dementia" report is produced, even setting aside the `NameError` at line 128.
