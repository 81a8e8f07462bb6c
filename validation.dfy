/** The input validation of the prediction page: the three validators and the
    short-circuit `and` chain that combines them before any processing starts.
    A validator that returns False also shows one error banner; the gate's
    result records which validators ran and which banners were shown. */
module Validation {
  import opened Wrappers
  import opened CharClasses

  const PhoneErrorMessage: string := "\U{26A0}\U{FE0F} Please enter a valid phone number!"
  const NameErrorMessage: string := "\U{26A0}\U{FE0F} Name should not contain numbers or special characters."
  const MissingFieldMessage: string := "\U{26A0}\U{FE0F} All fields are required!"

  /** The uploaded MRI scan; only its presence matters to validation. */
  datatype UploadedFile = UploadedFile(fileName: string, content: seq<bv8>)

  /** The values of the form's widgets when "Submit & Predict" is pressed. */
  datatype Submission = Submission(
    name: string,
    age: int,
    gender: string,
    contact: string,
    scan: Option<UploadedFile>)

  // ---------------------------------------------------------------------
  // The phone number: the pattern ^\+?\d{10,15}$ under re.match
  // ---------------------------------------------------------------------

  /** Every character of `s` is a decimal digit. */
  predicate AllDigits(s: string) {
    forall k | 0 <= k < |s| :: IsDecimalDigit(s[k])
  }

  /** The length of the longest run of digits that starts at position `i`. */
  function DigitRun(s: string, i: nat): (n: nat)
    requires i <= |s|
    ensures i + n <= |s|
    ensures forall k | i <= k < i + n :: IsDecimalDigit(s[k])
    ensures i + n == |s| || !IsDecimalDigit(s[i + n])
    decreases |s| - i
  {
    if i == |s| || !IsDecimalDigit(s[i]) then 0 else 1 + DigitRun(s, i + 1)
  }

  /** Where `$` matches without the MULTILINE flag: at the very end, or just
      before a newline that is the last character. */
  predicate DollarMatchesAt(s: string, i: nat): (b: bool)
    ensures b ==> |s| - 1 <= i <= |s|
    ensures b ==> s[i..] == "" || s[i..] == "\n"
  {
    i == |s| || (i == |s| - 1 && s[i] == '\n')
  }

  /** The recogniser: skip an optional `+`, take the run of digits (the greedy
      `\d{10,15}` can only end where the run ends, since `$` cannot match
      before a digit), and require the run to have 10 to 15 digits and to be
      followed by what `$` accepts. An accepted number is 10 to 17 characters
      long, so never empty. */
  predicate ValidatePhoneNumber(phone: string): (ok: bool)
    ensures ok ==> 10 <= |phone| <= 17
  {
    var start := if |phone| > 0 && phone[0] == '+' then 1 else 0;
    var n := DigitRun(phone, start);
    10 <= n <= 15 && DollarMatchesAt(phone, start + n)
  }

  /** The language of the pattern, stated as a decomposition: an optional plus
      sign, 10 to 15 digits, and an optional final newline. */
  ghost predicate PhonePattern(s: string) {
    exists sign: string, digits: string, newline: string ::
      s == sign + digits + newline
      && (sign == "" || sign == "+")
      && 10 <= |digits| <= 15 && AllDigits(digits)
      && (newline == "" || newline == "\n")
  }

  /** If positions i .. i+m-1 are digits and position i+m is not, the run from
      i has length exactly m. */
  lemma DigitRunIsMaximal(s: string, i: nat, m: nat)
    requires i + m <= |s|
    requires forall k | i <= k < i + m :: IsDecimalDigit(s[k])
    requires i + m == |s| || !IsDecimalDigit(s[i + m])
    ensures DigitRun(s, i) == m
  {
  }

  /** Every string the recogniser accepts belongs to the pattern's language. */
  lemma AcceptedPhoneMatchesPattern(s: string)
    requires ValidatePhoneNumber(s)
    ensures PhonePattern(s)
  {
    var start := if |s| > 0 && s[0] == '+' then 1 else 0;
    var n := DigitRun(s, start);
    var sign, digits, newline := s[..start], s[start..start + n], s[start + n..];
    assert s == sign + digits + newline;
    assert AllDigits(digits) by {
      forall k | 0 <= k < |digits| ensures IsDecimalDigit(digits[k]) {
        assert digits[k] == s[start + k];
      }
    }
    assert sign == "" || sign == "+";
    assert newline == "" || newline == "\n";
  }

  /** Every string of the pattern's language is accepted by the recogniser. */
  lemma PatternPhoneAccepted(sign: string, digits: string, newline: string)
    requires sign == "" || sign == "+"
    requires 10 <= |digits| <= 15 && AllDigits(digits)
    requires newline == "" || newline == "\n"
    ensures ValidatePhoneNumber(sign + digits + newline)
  {
    var s := sign + digits + newline;
    var start := |sign|;
    assert s[0] == (if sign == "+" then '+' else digits[0]);
    assert start == (if |s| > 0 && s[0] == '+' then 1 else 0);
    forall k | start <= k < start + |digits| ensures IsDecimalDigit(s[k]) {
      assert s[k] == digits[k - start];
    }
    if newline == "\n" {
      assert s[start + |digits|] == '\n';
    }
    DigitRunIsMaximal(s, start, |digits|);
  }

  /** The recogniser accepts exactly the language of the pattern. */
  lemma PhoneValidatorMatchesPattern(s: string)
    ensures ValidatePhoneNumber(s) <==> PhonePattern(s)
  {
    if ValidatePhoneNumber(s) {
      AcceptedPhoneMatchesPattern(s);
    }
    if PhonePattern(s) {
      var sign: string, digits: string, newline: string :|
        s == sign + digits + newline
        && (sign == "" || sign == "+")
        && 10 <= |digits| <= 15 && AllDigits(digits)
        && (newline == "" || newline == "\n");
      PatternPhoneAccepted(sign, digits, newline);
    }
  }

  /** Accepted: a leading plus with 11 digits, and the same with a trailing
      newline, because of how `$` treats a final newline. */
  lemma PhoneExamplesAccepted()
    ensures ValidatePhoneNumber("+12345678901")
    ensures ValidatePhoneNumber("+12345678901\n")
  {
    DigitRunIsMaximal("+12345678901", 1, 11);
    DigitRunIsMaximal("+12345678901\n", 1, 11);
  }

  /** Accepted: the shortest and the longest digit counts, without a sign. */
  lemma PhoneExamplesBounds()
    ensures ValidatePhoneNumber("0123456789")
    ensures ValidatePhoneNumber("123456789012345")
  {
    DigitRunIsMaximal("0123456789", 0, 10);
    DigitRunIsMaximal("123456789012345", 0, 15);
  }

  /** Rejected for the digit count: nine digits, sixteen digits, none at all. */
  lemma PhoneExamplesWrongLength()
    ensures !ValidatePhoneNumber("123456789")
    ensures !ValidatePhoneNumber("1234567890123456")
    ensures !ValidatePhoneNumber("")
  {
    DigitRunIsMaximal("123456789", 0, 9);
    DigitRunIsMaximal("1234567890123456", 0, 16);
  }

  /** Rejected for a separator among the digits: a space, a dash. */
  lemma PhoneExamplesSeparator()
    ensures !ValidatePhoneNumber("+1 2345678901")
    ensures !ValidatePhoneNumber("123-4567890")
  {
    DigitRunIsMaximal("+1 2345678901", 1, 1);
    DigitRunIsMaximal("123-4567890", 0, 3);
  }

  /** Rejected for a doubled sign or terminator: a second plus, two trailing
      newlines. */
  lemma PhoneExamplesDoubled()
    ensures !ValidatePhoneNumber("++12345678901")
    ensures !ValidatePhoneNumber("12345678901\n\n")
  {
    DigitRunIsMaximal("++12345678901", 1, 0);
    DigitRunIsMaximal("12345678901\n\n", 0, 11);
  }

  /** An accepted phone number holds nothing but digits, apart from a
      leading `+` and a final newline. */
  lemma AcceptedPhoneCharacters(s: string)
    requires ValidatePhoneNumber(s)
    ensures forall k | 0 <= k < |s| ::
              IsDecimalDigit(s[k]) || (k == 0 && s[k] == '+') || (k == |s| - 1 && s[k] == '\n')
  {
  }

  // ---------------------------------------------------------------------
  // The name: all(char.isalpha() or char.isspace() for char in name)
  // ---------------------------------------------------------------------

  /** Scans the name from left to right and stops at the first character
      that is neither a letter nor whitespace, as `all` over a generator does. */
  function ValidateName(name: string): (ok: bool)
    ensures ok <==> forall k | 0 <= k < |name| :: IsAlpha(name[k]) || IsSpace(name[k])
  {
    |name| == 0 || ((IsAlpha(name[0]) || IsSpace(name[0])) && ValidateName(name[1..]))
  }

  /** A name holding a digit anywhere is rejected. */
  lemma NameWithDigitRejected(name: string, k: nat)
    requires k < |name| && IsDecimalDigit(name[k])
    ensures !ValidateName(name)
  {
  }

  /** Two parts of a name are valid together exactly when each is valid. */
  lemma {:induction false} ValidateNameConcat(a: string, b: string)
    ensures ValidateName(a + b) <==> ValidateName(a) && ValidateName(b)
  {
    if a != [] {
      assert (a + b)[0] == a[0];
      assert (a + b)[1..] == a[1..] + b;
      ValidateNameConcat(a[1..], b);
    } else {
      assert a + b == b;
    }
  }

  /** The empty name passes (vacuously) and so does "Jane Doe". */
  lemma NamesAccepted()
    ensures ValidateName("")
    ensures ValidateName("Jane Doe")
  {
    var jane := "Jane Doe";
    forall k | 0 <= k < |jane| ensures IsAlpha(jane[k]) || IsSpace(jane[k]) {
      assert jane[k] == ' ' || 'A' <= jane[k] <= 'z';
    }
  }

  /** "John123" and "O'Brien" are rejected. */
  lemma NamesRejected()
    ensures !ValidateName("John123")
    ensures !ValidateName("O'Brien")
  {
    NameWithDigitRejected("John123", 4);
    var apostrophe := "O'Brien"[1];
    assert apostrophe == '\'';
    assert !(IsAlpha(apostrophe) || IsSpace(apostrophe));
  }

  // ---------------------------------------------------------------------
  // Presence: not name or not age or not contact or not file
  // ---------------------------------------------------------------------

  /** Python truthiness of each field: an empty string, the integer 0 and a
      missing upload are all falsy. */
  predicate ValidateInput(name: string, age: int, contact: string, scan: Option<UploadedFile>): (ok: bool)
    // In the gate this check runs only after the phone check, and an accepted
    // phone number is never empty, so there only the name, the age and the
    // upload can fail it.
    ensures ValidatePhoneNumber(contact) ==> (ok <==> name != "" && age != 0 && scan.Some?)
  {
    !(name == "" || age == 0 || contact == "" || scan.None?)
  }

  /** The age widget allows 0, yet an age of 0 is treated as a missing field. */
  lemma AgeZeroIsMissing(name: string, contact: string, scan: Option<UploadedFile>)
    ensures !ValidateInput(name, 0, contact, scan)
  {
  }

  // ---------------------------------------------------------------------
  // The gate: validate_name(...) and validate_phone_number(...) and validate_input(...)
  // ---------------------------------------------------------------------

  /** The three validators, named in the order the gate calls them. */
  datatype Check = NameCheck | PhoneCheck | PresenceCheck

  const GateOrder: seq<Check> := [NameCheck, PhoneCheck, PresenceCheck]

  /** The banner a validator shows when it returns False; each validator has
      its own. */
  function ErrorMessage(c: Check): (m: string)
    ensures m == PhoneErrorMessage <==> c == PhoneCheck
    ensures m == NameErrorMessage <==> c == NameCheck
    ensures m == MissingFieldMessage <==> c == PresenceCheck
  {
    assert |NameErrorMessage| != |PhoneErrorMessage|;
    assert |NameErrorMessage| != |MissingFieldMessage|;
    assert |PhoneErrorMessage| != |MissingFieldMessage|;
    match c
    case NameCheck => NameErrorMessage
    case PhoneCheck => PhoneErrorMessage
    case PresenceCheck => MissingFieldMessage
  }

  /** What a validator returns for the submission. */
  predicate Passes(c: Check, f: Submission) {
    match c
    case NameCheck => ValidateName(f.name)
    case PhoneCheck => ValidatePhoneNumber(f.contact)
    case PresenceCheck => ValidateInput(f.name, f.age, f.contact, f.scan)
  }

  /** The outcome of the gate: whether processing goes on, which validators
      were actually called, and every banner shown, in order. */
  datatype GateResult = GateResult(passed: bool, ran: seq<Check>, shown: seq<string>)

  /** Evaluates `c1 and c2 and ...` left to right: the first validator that
      returns False shows its banner and ends the chain, and the ones after it
      are never called. */
  function RunInOrder(checks: seq<Check>, f: Submission): (r: GateResult)
    ensures r.ran <= checks
    ensures r.passed ==> r.ran == checks && r.shown == []
    ensures !r.passed ==> r.ran != [] && r.shown == [ErrorMessage(r.ran[|r.ran| - 1])]
  {
    if checks == [] then GateResult(true, [], [])
    else if !Passes(checks[0], f) then GateResult(false, [checks[0]], [ErrorMessage(checks[0])])
    else
      var rest := RunInOrder(checks[1..], f);
      GateResult(rest.passed, [checks[0]] + rest.ran, rest.shown)
  }

  /** Every validator the chain called passed, except the last one when the
      chain fails. */
  lemma {:induction false} RunInOrderStopsAtFirstFailure(checks: seq<Check>, f: Submission)
    ensures var r := RunInOrder(checks, f);
            (forall k | 0 <= k < |r.ran| - 1 :: Passes(r.ran[k], f))
            && (!r.passed ==> !Passes(r.ran[|r.ran| - 1], f))
  {
    if checks != [] && Passes(checks[0], f) {
      var rest := RunInOrder(checks[1..], f);
      RunInOrderStopsAtFirstFailure(checks[1..], f);
      var r := RunInOrder(checks, f);
      assert r.ran == [checks[0]] + rest.ran;
      forall k | 0 <= k < |r.ran| - 1 ensures Passes(r.ran[k], f) {
        if k > 0 { assert r.ran[k] == rest.ran[k - 1]; }
      }
      if !r.passed {
        assert r.ran[|r.ran| - 1] == rest.ran[|rest.ran| - 1];
      }
    }
  }

  /** The chain passes exactly when every validator would pass. */
  lemma {:induction false} RunInOrderPassesIff(checks: seq<Check>, f: Submission)
    ensures RunInOrder(checks, f).passed <==> forall k | 0 <= k < |checks| :: Passes(checks[k], f)
  {
    if checks != [] && Passes(checks[0], f) {
      RunInOrderPassesIff(checks[1..], f);
      assert (forall k | 0 <= k < |checks| :: Passes(checks[k], f))
         <==> (forall k | 0 <= k < |checks| - 1 :: Passes(checks[1..][k], f));
    }
  }

  /** The gate of the prediction page: the checks run in the order name,
      phone, presence, and at most one banner is shown. */
  function Gate(f: Submission): (r: GateResult)
    ensures r.ran <= GateOrder
    ensures |r.shown| <= 1
  {
    RunInOrder(GateOrder, f)
  }

  /** The gate lets a submission through exactly when its name is letters and
      whitespace, its contact matches the phone pattern, and no field is falsy. */
  lemma GatePassesExactlyValidSubmissions(f: Submission)
    ensures Gate(f).passed <==>
              ValidateName(f.name) && PhonePattern(f.contact)
              && ValidateInput(f.name, f.age, f.contact, f.scan)
  {
    PhoneValidatorMatchesPattern(f.contact);
    RunInOrderPassesIff(GateOrder, f);
    assert Passes(GateOrder[0], f) <==> ValidateName(f.name);
    assert Passes(GateOrder[1], f) <==> ValidatePhoneNumber(f.contact);
    assert Passes(GateOrder[2], f) <==> ValidateInput(f.name, f.age, f.contact, f.scan);
  }

  /** A rejected submission shows exactly one banner; an accepted one none. */
  lemma GateShowsAtMostOneError(f: Submission)
    ensures |Gate(f).shown| == if Gate(f).passed then 0 else 1
  {
  }

  /** The gate reports the first failing validator in the order name, phone,
      presence, and calls none after it. */
  lemma GateReportsFirstFailure(f: Submission)
    ensures !ValidateName(f.name) ==>
              Gate(f).ran == [NameCheck] && Gate(f).shown == [NameErrorMessage]
    ensures ValidateName(f.name) && !ValidatePhoneNumber(f.contact) ==>
              Gate(f).ran == [NameCheck, PhoneCheck] && Gate(f).shown == [PhoneErrorMessage]
    ensures ValidateName(f.name) && ValidatePhoneNumber(f.contact)
            && !ValidateInput(f.name, f.age, f.contact, f.scan) ==>
              Gate(f).ran == GateOrder && Gate(f).shown == [MissingFieldMessage]
  {
    RunInOrderStopsAtFirstFailure(GateOrder, f);
    RunInOrderPassesIff(GateOrder, f);
    assert Passes(NameCheck, f) <==> ValidateName(f.name);
    assert Passes(PhoneCheck, f) <==> ValidatePhoneNumber(f.contact);
    if ValidateName(f.name) && !ValidatePhoneNumber(f.contact) {
      assert !Passes(GateOrder[1], f);
    } else if ValidateName(f.name) && !ValidateInput(f.name, f.age, f.contact, f.scan) {
      assert !Passes(GateOrder[2], f);
    }
  }

  /** An empty contact is reported as an invalid phone number, never as a
      missing field, because the phone check runs first. */
  lemma EmptyContactReportedAsInvalidPhone(f: Submission)
    requires f.contact == "" && ValidateName(f.name)
    ensures Gate(f).shown == [PhoneErrorMessage]
    ensures PresenceCheck !in Gate(f).ran
  {
    PhoneExamplesWrongLength();
    GateReportsFirstFailure(f);
  }

  /** When the "All fields are required!" banner shows, the blame lies with an
      empty name, an age of 0 or a missing scan, never with the contact. */
  lemma MissingFieldBlamesNameAgeOrScan(f: Submission)
    requires MissingFieldMessage in Gate(f).shown
    ensures f.name == "" || f.age == 0 || f.scan.None?
    ensures f.contact != ""
  {
    GateReportsFirstFailure(f);
    assert |NameErrorMessage| != |MissingFieldMessage|;
    assert |PhoneErrorMessage| != |MissingFieldMessage|;
    if ValidateName(f.name) && ValidatePhoneNumber(f.contact)
       && ValidateInput(f.name, f.age, f.contact, f.scan) {
      GatePassesExactlyValidSubmissions(f);
      PhoneValidatorMatchesPattern(f.contact);
    }
  }

  /** A name with a digit stops the gate before the phone number is looked at,
      whatever the rest of the submission holds. */
  lemma BadNameStopsGate(f: Submission, k: nat)
    requires k < |f.name| && IsDecimalDigit(f.name[k])
    ensures !Gate(f).passed
    ensures Gate(f).ran == [NameCheck] && Gate(f).shown == [NameErrorMessage]
  {
    NameWithDigitRejected(f.name, k);
    GateReportsFirstFailure(f);
  }

  /** "Jane Doe", aged 70, contact +12345678901, with a scan, passes. */
  lemma GateAcceptsJaneDoe(scan: UploadedFile)
    ensures Gate(Submission("Jane Doe", 70, "Female", "+12345678901", Some(scan))).passed
  {
    NamesAccepted();
    PhoneExamplesAccepted();
    var jane := Submission("Jane Doe", 70, "Female", "+12345678901", Some(scan));
    RunInOrderPassesIff(GateOrder, jane);
    assert Passes(GateOrder[0], jane) && Passes(GateOrder[1], jane) && Passes(GateOrder[2], jane);
  }

  /** "John123" with otherwise valid fields stops at the name. */
  lemma GateStopsJohn123(scan: UploadedFile)
    ensures Gate(Submission("John123", 70, "Male", "+12345678901", Some(scan))).shown == [NameErrorMessage]
  {
    BadNameStopsGate(Submission("John123", 70, "Male", "+12345678901", Some(scan)), 4);
  }
}
