/** The text of the PDF report: the document is the ordered list of what
    `generate_pdf` writes into it (text cells and vertical breaks), built step
    by step on a document object, as FPDF does. */
module Report {
  import opened Wrappers
  import Prediction

  // ---------------------------------------------------------------------
  // Python's str(int), used by the f-string "Age: {age}"
  // ---------------------------------------------------------------------

  function DigitChar(d: nat): (c: char)
    requires d < 10
    ensures '0' <= c <= '9' && c as int - '0' as int == d
  {
    (d + '0' as int) as char
  }

  /** Decimal digits of a natural number, most significant first. */
  function NatToDecimal(n: nat): (s: string)
    ensures |s| > 0
    ensures forall k | 0 <= k < |s| :: '0' <= s[k] <= '9'
    ensures s[0] == '0' <==> n == 0
    ensures n == 0 ==> |s| == 1
    decreases n
  {
    if n < 10 then [DigitChar(n)] else NatToDecimal(n / 10) + [DigitChar(n % 10)]
  }

  /** `str(n)`: a minus sign before the digits of a negative number. */
  function IntToDecimal(n: int): (s: string)
    ensures |s| > 0
    ensures s[0] == '-' <==> n < 0
    ensures forall k | (if n < 0 then 1 else 0) <= k < |s| :: '0' <= s[k] <= '9'
  {
    if n < 0 then "-" + NatToDecimal(-n) else NatToDecimal(n)
  }

  /** The value a string of decimal digits denotes. */
  function DecimalValue(s: string): nat
    requires forall k | 0 <= k < |s| :: '0' <= s[k] <= '9'
  {
    if s == [] then 0 else 10 * DecimalValue(s[..|s| - 1]) + (s[|s| - 1] as int - '0' as int)
  }

  /** Reading back the digits gives the number. */
  lemma {:induction false} DecimalRoundTrip(n: nat)
    ensures DecimalValue(NatToDecimal(n)) == n
  {
    if n >= 10 {
      var s := NatToDecimal(n);
      assert s[..|s| - 1] == NatToDecimal(n / 10);
      DecimalRoundTrip(n / 10);
    }
  }

  lemma NatToDecimalInjective(a: nat, b: nat)
    requires NatToDecimal(a) == NatToDecimal(b)
    ensures a == b
  {
    DecimalRoundTrip(a);
    DecimalRoundTrip(b);
  }

  /** Different numbers print differently, so the age line identifies the age. */
  lemma IntToDecimalInjective(a: int, b: int)
    requires IntToDecimal(a) == IntToDecimal(b)
    ensures a == b
  {
    var sa, sb := IntToDecimal(a), IntToDecimal(b);
    assert a < 0 <==> sa[0] == '-';
    assert b < 0 <==> sb[0] == '-';
    if a < 0 {
      assert sa[1..] == NatToDecimal(-a);
      assert sb[1..] == NatToDecimal(-b);
      NatToDecimalInjective(-a, -b);
    } else {
      NatToDecimalInjective(a, b);
    }
  }

  // ---------------------------------------------------------------------
  // The document object
  // ---------------------------------------------------------------------

  datatype Font = Font(family: string, style: string, size: nat)

  /** `cell` aligns left unless told otherwise; `multi_cell` justifies. */
  datatype Align = AlignLeft | AlignCenter | AlignJustify

  /** One call that puts something on the page: a text cell (`cell` with
      `ln=True`, or `multi_cell`) or a vertical break (`ln`). */
  datatype Entry =
    | TextCell(font: Font, width: nat, height: nat, text: string, align: Align)
    | LineBreak(height: nat)

  /** The part of an FPDF document the report writes: its page count, the
      current font and everything put on the page so far. */
  class PdfDocument {
    var pages: nat
    var font: Option<Font>
    var entries: seq<Entry>

    constructor ()
      ensures pages == 0 && font == None && entries == []
    {
      pages := 0;
      font := None;
      entries := [];
    }

    method AddPage()
      modifies this`pages
      ensures pages == old(pages) + 1
    {
      pages := pages + 1;
    }

    method SetFont(family: string, style: string, size: nat)
      modifies this`font
      ensures font == Some(Font(family, style, size))
    {
      font := Some(Font(family, style, size));
    }

    /** A text cell in the current font; FPDF refuses text before a font is set. */
    method Cell(width: nat, height: nat, text: string, align: Align)
      requires font.Some?
      modifies this`entries
      ensures entries == old(entries) + [TextCell(font.value, width, height, text, align)]
    {
      entries := entries + [TextCell(font.value, width, height, text, align)];
    }

    /** A text block in the current font, justified as FPDF's `multi_cell`
        does when no alignment is given. */
    method MultiCell(width: nat, height: nat, text: string)
      requires font.Some?
      modifies this`entries
      ensures entries == old(entries) + [TextCell(font.value, width, height, text, AlignJustify)]
    {
      entries := entries + [TextCell(font.value, width, height, text, AlignJustify)];
    }

    method Ln(height: nat)
      modifies this`entries
      ensures entries == old(entries) + [LineBreak(height)]
    {
      entries := entries + [LineBreak(height)];
    }
  }

  // ---------------------------------------------------------------------
  // The layout of the report
  // ---------------------------------------------------------------------

  const Title: string := "Alzheimer's Disease Prediction Report"
  const TitleFont: Font := Font("Arial", "B", 16)
  const SectionFont: Font := Font("Arial", "B", 14)
  const BodyFont: Font := Font("Arial", "", 12)
  const Congratulations: string := "\U{1F389} Congratulations! No Dementia Detected."

  /** The eight precautions, in the order they are printed. */
  const Precautions: seq<string> := [
    "Maintain a daily routine.",
    "Stay physically and mentally active.",
    "Follow a healthy diet.",
    "Engage in social interactions.",
    "Reduce stress and anxiety.",
    "Get enough sleep every night.",
    "Stay hydrated and avoid alcohol.",
    "Take prescribed medications on time."
  ]

  /** The title and the four patient lines, each block followed by a break. */
  function PatientEntries(name: string, age: int, gender: string, contact: string): (es: seq<Entry>)
    ensures |es| == 7
    ensures es[0] == TextCell(TitleFont, 200, 10, Title, AlignCenter)
    ensures es[1] == LineBreak(10) && es[6] == LineBreak(10)
  {
    [TextCell(TitleFont, 200, 10, Title, AlignCenter), LineBreak(10)]
    + FieldEntries(name, age, gender, contact)
    + [LineBreak(10)]
  }

  /** The four patient lines: name, age, gender and contact, in that order,
      each a left-aligned cell in the body font. */
  function FieldEntries(name: string, age: int, gender: string, contact: string): (es: seq<Entry>)
    ensures |es| == 4
    ensures forall k | 0 <= k < 4 :: es[k].TextCell? && es[k].font == BodyFont && es[k].align == AlignLeft
  {
    [ TextCell(BodyFont, 200, 10, "Patient Name: " + name, AlignLeft),
      TextCell(BodyFont, 200, 10, "Age: " + IntToDecimal(age), AlignLeft),
      TextCell(BodyFont, 200, 10, "Gender: " + gender, AlignLeft),
      TextCell(BodyFont, 200, 10, "Contact: " + contact, AlignLeft) ]
  }

  /** The diagnosis heading in the section font, the predicted condition in
      the body font, and a break. */
  function DiagnosisEntries(condition: string): (es: seq<Entry>)
    ensures |es| == 3
    ensures es[0].TextCell? && es[0].font == SectionFont
    ensures es[1].TextCell? && es[1].font == BodyFont
    ensures |es[1].text| >= |condition| && es[1].text[|es[1].text| - |condition|..] == condition
    ensures es[2] == LineBreak(10)
  {
    [ TextCell(SectionFont, 200, 10, "Diagnosis:", AlignLeft),
      TextCell(BodyFont, 200, 10, "Predicted Condition: " + condition, AlignLeft),
      LineBreak(10) ]
  }

  /** One "- " bullet block per item, as the precautions loop writes them. */
  function BulletEntries(items: seq<string>): (es: seq<Entry>)
    ensures |es| == |items|
    ensures forall k | 0 <= k < |es| ::
              es[k].TextCell? && es[k].font == BodyFont && es[k].align == AlignJustify
  {
    seq(|items|, k requires 0 <= k < |items| => TextCell(BodyFont, 0, 8, "- " + items[k], AlignJustify))
  }

  /** Either the precautions section or the congratulation line; only the
      precautions section ends with a break. */
  function AdviceEntries(condition: string): (es: seq<Entry>)
    ensures |es| == if condition != Prediction.NoDementia then |Precautions| + 2 else 1
    ensures es[|es| - 1].LineBreak? <==> condition != Prediction.NoDementia
  {
    if condition != Prediction.NoDementia then
      [TextCell(SectionFont, 200, 10, "Precautions:", AlignLeft)] + BulletEntries(Precautions) + [LineBreak(10)]
    else
      [TextCell(BodyFont, 200, 10, Congratulations, AlignLeft)]
  }

  /** Everything the report puts on its page, in order: eleven entries, or
      twenty when the precautions are printed, starting with the centred
      title. */
  function ReportEntries(name: string, age: int, gender: string, contact: string, condition: string): (es: seq<Entry>)
    ensures |es| == if condition != Prediction.NoDementia then 20 else 11
    ensures es[0] == TextCell(TitleFont, 200, 10, Title, AlignCenter)
  {
    PatientEntries(name, age, gender, contact) + DiagnosisEntries(condition) + AdviceEntries(condition)
  }

  /** The title and the patient block. */
  method WritePatientSection(pdf: PdfDocument, patientName: string, age: int, gender: string, mobileNo: string)
    modifies pdf`font, pdf`entries
    ensures pdf.font == Some(BodyFont)
    ensures pdf.entries == old(pdf.entries) + PatientEntries(patientName, age, gender, mobileNo)
  {
    pdf.SetFont("Arial", "B", 16);
    pdf.Cell(200, 10, Title, AlignCenter);
    pdf.Ln(10);
    pdf.SetFont("Arial", "", 12);
    pdf.Cell(200, 10, "Patient Name: " + patientName, AlignLeft);
    pdf.Cell(200, 10, "Age: " + IntToDecimal(age), AlignLeft);
    pdf.Cell(200, 10, "Gender: " + gender, AlignLeft);
    pdf.Cell(200, 10, "Contact: " + mobileNo, AlignLeft);
    pdf.Ln(10);
  }

  /** The diagnosis block. */
  method WriteDiagnosisSection(pdf: PdfDocument, condition: string)
    modifies pdf`font, pdf`entries
    ensures pdf.font == Some(BodyFont)
    ensures pdf.entries == old(pdf.entries) + DiagnosisEntries(condition)
  {
    pdf.SetFont("Arial", "B", 14);
    pdf.Cell(200, 10, "Diagnosis:", AlignLeft);
    pdf.SetFont("Arial", "", 12);
    pdf.Cell(200, 10, "Predicted Condition: " + condition, AlignLeft);
    pdf.Ln(10);
  }

  /** The precautions loop: one "- " bullet block per item, in order. */
  method WriteBullets(pdf: PdfDocument, items: seq<string>)
    requires pdf.font == Some(BodyFont)
    modifies pdf`entries
    ensures pdf.entries == old(pdf.entries) + BulletEntries(items)
  {
    ghost var before := pdf.entries;
    for k := 0 to |items|
      invariant pdf.entries == before + BulletEntries(items[..k])
    {
      pdf.MultiCell(0, 8, "- " + items[k]);
      assert BulletEntries(items[..k + 1])
          == BulletEntries(items[..k]) + [TextCell(BodyFont, 0, 8, "- " + items[k], AlignJustify)];
    }
    assert items[..|items|] == items;
  }

  /** The precautions, one bullet per item, or the congratulation line. */
  method WriteAdviceSection(pdf: PdfDocument, condition: string)
    requires pdf.font == Some(BodyFont)
    modifies pdf`font, pdf`entries
    ensures pdf.font == Some(BodyFont)
    ensures pdf.entries == old(pdf.entries) + AdviceEntries(condition)
  {
    if condition != Prediction.NoDementia {
      pdf.SetFont("Arial", "B", 14);
      pdf.Cell(200, 10, "Precautions:", AlignLeft);
      pdf.SetFont("Arial", "", 12);
      WriteBullets(pdf, Precautions);
      pdf.Ln(10);
    } else {
      pdf.Cell(200, 10, Congratulations, AlignLeft);
    }
  }

  /** Builds the report's text on a fresh single-page document. */
  method GenerateReport(patientName: string, age: int, gender: string, mobileNo: string, condition: string)
    returns (pdf: PdfDocument)
    ensures fresh(pdf)
    ensures pdf.pages == 1
    ensures pdf.font == Some(BodyFont)
    ensures pdf.entries == ReportEntries(patientName, age, gender, mobileNo, condition)
  {
    pdf := new PdfDocument();
    pdf.AddPage();
    WritePatientSection(pdf, patientName, age, gender, mobileNo);
    WriteDiagnosisSection(pdf, condition);
    WriteAdviceSection(pdf, condition);
  }

  // ---------------------------------------------------------------------
  // The lines of text the reader sees
  // ---------------------------------------------------------------------

  /** The text of every text cell, in order; breaks carry no text. */
  function TextOf(entries: seq<Entry>): seq<string> {
    if entries == [] then []
    else (if entries[0].TextCell? then [entries[0].text] else []) + TextOf(entries[1..])
  }

  lemma {:induction false} TextOfAppend(a: seq<Entry>, b: seq<Entry>)
    ensures TextOf(a + b) == TextOf(a) + TextOf(b)
  {
    if a == [] {
      assert a + b == b;
    } else {
      assert (a + b)[0] == a[0];
      assert (a + b)[1..] == a[1..] + b;
      TextOfAppend(a[1..], b);
    }
  }

  /** The text of one bullet per item: "- " and the item. */
  function BulletLines(items: seq<string>): seq<string> {
    seq(|items|, k requires 0 <= k < |items| => "- " + items[k])
  }

  /** The bullet cells read as the items, each after "- ", in order. */
  lemma {:induction false} BulletText(items: seq<string>)
    ensures TextOf(BulletEntries(items)) == BulletLines(items)
  {
    if items != [] {
      var es := BulletEntries(items);
      assert es[1..] == BulletEntries(items[1..]);
      BulletText(items[1..]);
    }
  }

  /** The lines of the report. */
  function ReportLines(name: string, age: int, gender: string, contact: string, condition: string): seq<string> {
    TextOf(ReportEntries(name, age, gender, contact, condition))
  }

  /** The seven lines every report starts with: title, the four patient lines
      in the order name, age, gender, contact, then the diagnosis heading and
      the predicted condition. */
  function HeaderLines(name: string, age: int, gender: string, contact: string, condition: string): seq<string> {
    [ Title,
      "Patient Name: " + name,
      "Age: " + IntToDecimal(age),
      "Gender: " + gender,
      "Contact: " + contact,
      "Diagnosis:",
      "Predicted Condition: " + condition ]
  }

  /** The lines that follow the header. */
  function AdviceLines(condition: string): seq<string> {
    if condition != Prediction.NoDementia then ["Precautions:"] + BulletLines(Precautions)
    else [Congratulations]
  }

  lemma TextOfCons(e: Entry, rest: seq<Entry>)
    ensures TextOf([e] + rest) == (if e.TextCell? then [e.text] else []) + TextOf(rest)
  {
    assert ([e] + rest)[0] == e;
    assert ([e] + rest)[1..] == rest;
  }

  /** A sequence of text cells reads as their texts, in order. */
  lemma {:induction false} TextOfCells(es: seq<Entry>)
    requires forall k | 0 <= k < |es| :: es[k].TextCell?
    ensures TextOf(es) == seq(|es|, k requires 0 <= k < |es| => es[k].text)
  {
    if es != [] {
      TextOfCells(es[1..]);
    }
  }

  lemma PatientText(name: string, age: int, gender: string, contact: string)
    ensures TextOf(PatientEntries(name, age, gender, contact))
         == [Title, "Patient Name: " + name, "Age: " + IntToDecimal(age), "Gender: " + gender, "Contact: " + contact]
  {
    var head := [TextCell(TitleFont, 200, 10, Title, AlignCenter), LineBreak(10)];
    var fields := FieldEntries(name, age, gender, contact);
    var tail := [LineBreak(10)];
    assert TextOf(tail) == [] by {
      TextOfCons(LineBreak(10), []);
      assert tail == [LineBreak(10)] + [];
    }
    assert TextOf(head) == [Title] by {
      TextOfCons(head[0], tail);
      assert head == [head[0]] + tail;
    }
    TextOfAppend(head + fields, tail);
    TextOfAppend(head, fields);
    FieldText(name, age, gender, contact);
  }

  /** The four patient cells read as their four lines, in order. */
  lemma FieldText(name: string, age: int, gender: string, contact: string)
    ensures TextOf(FieldEntries(name, age, gender, contact))
         == ["Patient Name: " + name, "Age: " + IntToDecimal(age), "Gender: " + gender, "Contact: " + contact]
  {
    var fields := FieldEntries(name, age, gender, contact);
    TextOfCells(fields);
    var t := TextOf(fields);
    assert |t| == 4;
    assert t[0] == fields[0].text && t[1] == fields[1].text && t[2] == fields[2].text && t[3] == fields[3].text;
  }

  lemma DiagnosisText(condition: string)
    ensures TextOf(DiagnosisEntries(condition)) == ["Diagnosis:", "Predicted Condition: " + condition]
  {
    var d := DiagnosisEntries(condition);
    assert TextOf(d[2..]) == [];
    assert TextOf(d[1..]) == [d[1].text];
  }

  lemma AdviceText(condition: string)
    ensures TextOf(AdviceEntries(condition)) == AdviceLines(condition)
  {
    var a := AdviceEntries(condition);
    if condition != Prediction.NoDementia {
      var bullets := BulletEntries(Precautions);
      TextOfAppend([a[0]] + bullets, [LineBreak(10)]);
      TextOfAppend([a[0]], bullets);
      BulletText(Precautions);
    }
  }

  /** The report is the header, then either "Precautions:" and the eight
      precautions in order (every condition but "No Dementia", including
      "Unknown Condition"), or the single congratulation line. */
  lemma ReportLayout(name: string, age: int, gender: string, contact: string, condition: string)
    ensures ReportLines(name, age, gender, contact, condition)
         == HeaderLines(name, age, gender, contact, condition) + AdviceLines(condition)
  {
    var p := PatientEntries(name, age, gender, contact);
    var d := DiagnosisEntries(condition);
    var a := AdviceEntries(condition);
    TextOfAppend(p + d, a);
    TextOfAppend(p, d);
    PatientText(name, age, gender, contact);
    DiagnosisText(condition);
    AdviceText(condition);
  }

  /** A precaution bullet: a line that starts with "- ". */
  predicate IsBullet(line: string) {
    |line| >= 2 && line[0] == '-' && line[1] == ' '
  }

  /** The bullet lines of a document, in order. */
  function Bullets(lines: seq<string>): (bullets: seq<string>)
    ensures |bullets| <= |lines|
    ensures forall b | b in bullets :: IsBullet(b) && b in lines
  {
    if lines == [] then []
    else (if IsBullet(lines[0]) then [lines[0]] else []) + Bullets(lines[1..])
  }

  lemma {:induction false} BulletsAppend(a: seq<string>, b: seq<string>)
    ensures Bullets(a + b) == Bullets(a) + Bullets(b)
  {
    if a == [] {
      assert a + b == b;
    } else {
      assert (a + b)[0] == a[0];
      assert (a + b)[1..] == a[1..] + b;
      BulletsAppend(a[1..], b);
    }
  }

  /** Lines none of which is a bullet have no bullets. */
  lemma {:induction false} BulletsOfPlainLines(lines: seq<string>)
    requires forall k | 0 <= k < |lines| :: !IsBullet(lines[k])
    ensures Bullets(lines) == []
  {
    if lines != [] {
      assert forall k | 0 <= k < |lines| - 1 :: lines[1..][k] == lines[k + 1];
      BulletsOfPlainLines(lines[1..]);
    }
  }

  /** Lines all of which are bullets are their own bullets. */
  lemma {:induction false} BulletsOfBulletLines(lines: seq<string>)
    requires forall k | 0 <= k < |lines| :: IsBullet(lines[k])
    ensures Bullets(lines) == lines
  {
    if lines != [] {
      assert forall k | 0 <= k < |lines| - 1 :: lines[1..][k] == lines[k + 1];
      BulletsOfBulletLines(lines[1..]);
      assert lines == [lines[0]] + lines[1..];
    }
  }

  /** Each item written after "- " is a bullet. */
  lemma BulletLinesAreBullets(items: seq<string>)
    ensures Bullets(BulletLines(items)) == BulletLines(items)
  {
    var ls := BulletLines(items);
    forall k | 0 <= k < |ls| ensures IsBullet(ls[k]) {
      assert ls[k] == "- " + items[k];
    }
    BulletsOfBulletLines(ls);
  }

  /** No header line is a bullet, whatever the patient's fields hold. */
  lemma HeaderHasNoBullets(name: string, age: int, gender: string, contact: string, condition: string)
    ensures Bullets(HeaderLines(name, age, gender, contact, condition)) == []
  {
    var h := HeaderLines(name, age, gender, contact, condition);
    forall k | 0 <= k < |h| ensures !IsBullet(h[k]) {
      assert h[k][0] != '-';
    }
    BulletsOfPlainLines(h);
  }

  /** The bullets of a report are exactly the eight precautions, in the order
      of the list, unless the condition is "No Dementia", when there are none. */
  lemma ReportBullets(name: string, age: int, gender: string, contact: string, condition: string)
    ensures Bullets(ReportLines(name, age, gender, contact, condition))
         == if condition != Prediction.NoDementia then BulletLines(Precautions) else []
  {
    var h := HeaderLines(name, age, gender, contact, condition);
    var rest := AdviceLines(condition);
    ReportLayout(name, age, gender, contact, condition);
    BulletsAppend(h, rest);
    HeaderHasNoBullets(name, age, gender, contact, condition);
    if condition != Prediction.NoDementia {
      BulletsAppend(["Precautions:"], BulletLines(Precautions));
      BulletLinesAreBullets(Precautions);
      assert Bullets(["Precautions:"]) == [];
    } else {
      assert Bullets([Congratulations]) == [];
    }
  }

  /** The four lines of the header that begin with 'P' are not the
      "Precautions:" heading. */
  lemma HeaderLacksPrecautionsHeading(name: string, age: int, gender: string, contact: string, condition: string)
    ensures "Precautions:" !in HeaderLines(name, age, gender, contact, condition)
  {
    var h := HeaderLines(name, age, gender, contact, condition);
    assert h[1][1] == 'a';
    assert h[6][3] == 'd';
    assert h[0][0] == 'A' && h[2][0] == 'A' && h[3][0] == 'G' && h[4][0] == 'C' && h[5][0] == 'D';
  }

  /** The "Precautions:" heading appears exactly when the condition is not
      "No Dementia". */
  lemma PrecautionsHeadingIff(name: string, age: int, gender: string, contact: string, condition: string)
    ensures "Precautions:" in ReportLines(name, age, gender, contact, condition)
            <==> condition != Prediction.NoDementia
  {
    ReportLayout(name, age, gender, contact, condition);
    HeaderLacksPrecautionsHeading(name, age, gender, contact, condition);
    assert Congratulations[0] != 'P';
  }

  /** No header line begins with the party popper, so none is the
      congratulation line. */
  lemma HeaderLacksCongratulations(name: string, age: int, gender: string, contact: string, condition: string)
    ensures Congratulations !in HeaderLines(name, age, gender, contact, condition)
  {
    var h := HeaderLines(name, age, gender, contact, condition);
    assert Congratulations[0] == '\U{1F389}';
    assert h[0][0] == 'A' && h[1][0] == 'P' && h[2][0] == 'A' && h[3][0] == 'G';
    assert h[4][0] == 'C' && h[5][0] == 'D' && h[6][0] == 'P';
  }

  /** A bullet is never the congratulation line. */
  lemma BulletLinesLackCongratulations(items: seq<string>)
    ensures Congratulations !in BulletLines(items)
  {
    var ls := BulletLines(items);
    assert Congratulations[0] != '-';
    forall k | 0 <= k < |ls| ensures ls[k] != Congratulations {
      assert ls[k] == "- " + items[k];
      assert ls[k][0] == '-';
    }
  }

  /** The congratulation line appears exactly when the condition is "No
      Dementia", and then as the last of eight lines. */
  lemma CongratulationsIff(name: string, age: int, gender: string, contact: string, condition: string)
    ensures Congratulations in ReportLines(name, age, gender, contact, condition)
            <==> condition == Prediction.NoDementia
    ensures condition == Prediction.NoDementia ==>
              var lines := ReportLines(name, age, gender, contact, condition);
              |lines| == 8 && lines[7] == Congratulations
  {
    ReportLayout(name, age, gender, contact, condition);
    HeaderLacksCongratulations(name, age, gender, contact, condition);
    BulletLinesLackCongratulations(Precautions);
    assert Congratulations[0] != 'P';
  }

  /** The scenario of a class-2 result: the report says "No Dementia", ends
      with the congratulation line and lists no precautions. */
  lemma ReportForNoDementiaClass(name: string, age: int, gender: string, contact: string)
    ensures var lines := ReportLines(name, age, gender, contact, Prediction.ConditionLabel(2));
            |lines| == 8
            && lines[6] == "Predicted Condition: " + Prediction.NoDementia
            && lines[7] == Congratulations
            && Bullets(lines) == []
  {
    assert Prediction.ConditionLabel(2) == Prediction.NoDementia;
    ReportLayout(name, age, gender, contact, Prediction.NoDementia);
    ReportBullets(name, age, gender, contact, Prediction.NoDementia);
  }

  /** Any condition other than "No Dementia" gives sixteen lines: the header,
      whose last line names the condition, then "Precautions:" and the eight
      bullets in order. */
  lemma ReportWithPrecautions(name: string, age: int, gender: string, contact: string, condition: string)
    requires condition != Prediction.NoDementia
    ensures var lines := ReportLines(name, age, gender, contact, condition);
            |lines| == 16
            && lines[6] == "Predicted Condition: " + condition
            && lines[7] == "Precautions:"
            && lines[8..] == BulletLines(Precautions)
  {
    var h := HeaderLines(name, age, gender, contact, condition);
    var b := BulletLines(Precautions);
    ReportLayout(name, age, gender, contact, condition);
    assert AdviceLines(condition) == ["Precautions:"] + b;
    assert (h + (["Precautions:"] + b))[8..] == b;
  }

  /** The scenario of a class-0 result: the report says "Mild Dementia" and
      lists all eight precautions in order. */
  lemma ReportForMildDementiaClass(name: string, age: int, gender: string, contact: string)
    ensures var lines := ReportLines(name, age, gender, contact, Prediction.ConditionLabel(0));
            |lines| == 16
            && lines[6] == "Predicted Condition: " + Prediction.MildDementia
            && lines[7] == "Precautions:"
            && lines[8..] == BulletLines(Precautions)
  {
    assert Prediction.ConditionLabel(0) == Prediction.MildDementia;
    assert |Prediction.MildDementia| != |Prediction.NoDementia|;
    ReportWithPrecautions(name, age, gender, contact, Prediction.MildDementia);
  }

  /** An index outside the table yields "Unknown Condition", and that label
      still gets the full precautions section. */
  lemma UnknownConditionGetsPrecautions(name: string, age: int, gender: string, contact: string, index: int)
    requires !(0 <= index <= 3)
    ensures Bullets(ReportLines(name, age, gender, contact, Prediction.ConditionLabel(index)))
         == BulletLines(Precautions)
  {
    assert Prediction.ConditionLabel(index) == Prediction.UnknownCondition;
    assert |Prediction.UnknownCondition| != |Prediction.NoDementia|;
    ReportBullets(name, age, gender, contact, Prediction.UnknownCondition);
  }
}
