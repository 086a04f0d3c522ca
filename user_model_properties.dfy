/**
 * What the `User` schema promises, stated about `Validate`: which errors a
 * failed validation reports, what each path's validators report in order,
 * and one lemma per rule saying exactly when that rule's error is reported.
 */
module UserModelProperties {
  import opened Wrappers
  import opened JsString
  import opened UserModel

  /** Validating `c` fails and reports error `e`. */
  predicate Reported(c: Candidate, isEmail: string -> bool, e: FieldError)
  {
    var r := Validate(c, isEmail);
    r.Failure? && e in r.error
  }

  /** A string value that passes `required`: present and non-empty. */
  predicate Filled(v: Option<string>)
  {
    v.Some? && v.value != []
  }

  // ---------------------------------------------------------------------------
  // Reporting: an error is reported exactly when its path fails with it.
  // ---------------------------------------------------------------------------

  /** Validation reports an error for a path exactly when that path's validators fail with it, at most one per path. */
  lemma ReportedIff(c: Candidate, isEmail: string -> bool, e: FieldError)
    ensures Reported(c, isEmail, e) <==>
      OnSchema(NewDocument(c), e.path) && PathResult(NewDocument(c), isEmail, e.path) == Some(e.violation)
  {
    var d := NewDocument(c);
    if Validate(c, isEmail).Success? && OnSchema(d, e.path) {
      assert PathResult(d, isEmail, e.path).None?;
    }
  }

  /** No path is reported with two different violations. */
  lemma OneViolationPerPath(c: Candidate, isEmail: string -> bool, e1: FieldError, e2: FieldError)
    requires Reported(c, isEmail, e1) && Reported(c, isEmail, e2)
    requires e1.path == e2.path
    ensures e1 == e2
  {
    ReportedIff(c, isEmail, e1);
    ReportedIff(c, isEmail, e2);
  }

  // ---------------------------------------------------------------------------
  // The outcome of each path on a document.
  // ---------------------------------------------------------------------------

  lemma NameOutcome(v: Option<string>)
    ensures FirstViolation(v, NameRules, 0) ==
      if !Filled(v) then Some(Missing)
      else if JsLength(v.value) > MaxNameLength then Some(TooLong(MaxNameLength))
      else None
  {
    RunTwo(v, Required, MaxLength(MaxNameLength));
  }

  lemma RequiredOnlyOutcome(v: Option<string>)
    ensures FirstViolation(v, RequiredOnly, 0) == if !Filled(v) then Some(Missing) else None
  {
    RunOne(v, Required);
  }

  lemma EmailOutcome(v: Option<string>, isEmail: string -> bool)
    ensures FirstViolation(v, EmailRules(isEmail), 0) ==
      if !Filled(v) then Some(Missing)
      else if !isEmail(v.value) then Some(Invalid(InvalidEmail))
      else None
  {
    RunTwo(v, Required, Custom(isEmail, InvalidEmail));
  }

  lemma PasswordOutcome(v: Option<string>)
    ensures FirstViolation(v, PasswordRules, 0) ==
      if !Filled(v) then Some(Missing)
      else if JsLength(v.value) < MinPasswordLength then Some(TooShort(MinPasswordLength))
      else if !PasswordIsSafe(v.value) then Some(Invalid(PasswordContainsPassword))
      else None
  {
    RunThree(v, Required, MinLength(MinPasswordLength), Custom(PasswordIsSafe, PasswordContainsPassword));
  }

  lemma ConfirmPasswordOutcome(v: Option<string>, password: Option<string>)
    ensures FirstViolation(v, ConfirmPasswordRules(password), 0) ==
      if !Filled(v) then Some(Missing)
      else if Some(v.value) != password then Some(Invalid(PasswordsDoNotMatch))
      else None
  {
    RunTwo(v, Required, Custom(s => Some(s) == password, PasswordsDoNotMatch));
  }

  lemma GenderOutcome(v: Option<string>)
    ensures FirstViolation(v, GenderRules, 0) ==
      if !Filled(v) then Some(Missing)
      else if v.value !in Genders then Some(NotInEnum)
      else None
  {
    RunTwo(v, Required, Enum(Genders));
  }

  lemma PhoneOutcome(v: Option<string>)
    ensures FirstViolation(v, PhoneRules, 0) ==
      if !Filled(v) then Some(Missing)
      else if !IsTenDigitPhone(v.value) then Some(Invalid(PhoneNotTenDigits))
      else None
  {
    RunTwo(v, Required, Custom(IsTenDigitPhone, PhoneNotTenDigits));
  }

  lemma CardNumberOutcome(v: Option<string>)
    ensures FirstViolation(v, CardNumberRules, 0) ==
      if !Filled(v) then Some(Missing)
      else if JsLength(v.value) < CardNumberLength then Some(TooShort(CardNumberLength))
      else if JsLength(v.value) > CardNumberLength then Some(TooLong(CardNumberLength))
      else None
  {
    RunThree(v, Required, MinLength(CardNumberLength), MaxLength(CardNumberLength));
  }

  lemma CvvOutcome(v: Option<string>)
    ensures FirstViolation(v, CvvRules, 0) ==
      if !Filled(v) then Some(Missing)
      else if JsLength(v.value) < MinCvvLength then Some(TooShort(MinCvvLength))
      else if JsLength(v.value) > MaxCvvLength then Some(TooLong(MaxCvvLength))
      else None
  {
    RunThree(v, Required, MinLength(MinCvvLength), MaxLength(MaxCvvLength));
  }

  // ---------------------------------------------------------------------------
  // One lemma per rule of the schema, stated on the candidate payload.
  // ---------------------------------------------------------------------------

  /**
   * The error path `p` reports is decided by its outcome `r` alone; a helper
   * that keeps the rule lemmas from unfolding the whole validation.
   */
  lemma ReportedAt(c: Candidate, isEmail: string -> bool, p: Path, x: Violation, r: Option<Violation>)
    requires OnSchema(NewDocument(c), p) && PathResult(NewDocument(c), isEmail, p) == r
    ensures Reported(c, isEmail, FieldError(p, x)) <==> r == Some(x)
  {
    ReportedIff(c, isEmail, FieldError(p, x));
  }

  // ---------------------------------------------------------------------------
  // One lemma per rule: exactly which errors a path reports, stated on the
  // submitted values.
  // ---------------------------------------------------------------------------

  /**
   * `firstName` and `lastName` are trimmed, then required and at most 50
   * characters long.
   */
  lemma NameRule(c: Candidate, isEmail: string -> bool, p: Path, x: Violation)
    requires p == FirstName || p == LastName
    ensures var raw := if p == FirstName then c.firstName else c.lastName;
      Reported(c, isEmail, FieldError(p, x)) <==>
        (x == Missing && (raw.None? || Trim(raw.value) == []))
        || (x == TooLong(MaxNameLength) && raw.Some? && JsLength(Trim(raw.value)) > MaxNameLength)
  {
    var raw := if p == FirstName then c.firstName else c.lastName;
    var v := TrimValue(raw);
    NameOutcome(v);
    ReportedAt(c, isEmail, p, x, FirstViolation(v, NameRules, 0));
  }

  /** `email` is trimmed and lower-cased, then required and checked by the e-mail syntax test. */
  lemma EmailRule(c: Candidate, isEmail: string -> bool, x: Violation)
    ensures Reported(c, isEmail, FieldError(Email, x)) <==>
      (x == Missing && (c.email.None? || NormalizeEmail(c.email.value) == []))
      || (x == Invalid(InvalidEmail) && c.email.Some? && NormalizeEmail(c.email.value) != []
          && !isEmail(NormalizeEmail(c.email.value)))
  {
    var v := NormalizeEmailValue(c.email);
    EmailOutcome(v, isEmail);
    ReportedAt(c, isEmail, Email, x, FirstViolation(v, EmailRules(isEmail), 0));
  }

  /**
   * `password` is trimmed, then required, at least 6 characters long, and
   * rejected with `Password should not contain "password"` when its
   * lower-cased form includes "password".
   */
  lemma PasswordRule(c: Candidate, isEmail: string -> bool, x: Violation)
    ensures Reported(c, isEmail, FieldError(Password, x)) <==>
      (x == Missing && (c.password.None? || Trim(c.password.value) == []))
      || (x == TooShort(MinPasswordLength) && c.password.Some?
          && 0 < JsLength(Trim(c.password.value)) < MinPasswordLength)
      || (x == Invalid(PasswordContainsPassword) && c.password.Some?
          && JsLength(Trim(c.password.value)) >= MinPasswordLength
          && Includes(Lower(Trim(c.password.value)), "password"))
  {
    var raw := c.password;
    var r := FirstViolation(TrimValue(raw), PasswordRules, 0);
    PasswordRawOutcome(raw);
    ReportedAt(c, isEmail, Password, x, r);
    PasswordVerdict(raw.Some?, if raw.Some? then Trim(raw.value) else [], x, r);
  }

  /** The case analysis of `PasswordRule`, on the trimmed value `t` alone. */
  lemma PasswordVerdict(present: bool, t: string, x: Violation, r: Option<Violation>)
    requires r == if !present || t == [] then Some(Missing)
      else if JsLength(t) < MinPasswordLength then Some(TooShort(MinPasswordLength))
      else if Includes(Lower(t), "password") then Some(Invalid(PasswordContainsPassword))
      else None
    ensures r == Some(x) <==>
      (x == Missing && (!present || t == []))
      || (x == TooShort(MinPasswordLength) && present && 0 < JsLength(t) < MinPasswordLength)
      || (x == Invalid(PasswordContainsPassword) && present && JsLength(t) >= MinPasswordLength
          && Includes(Lower(t), "password"))
  {
  }

  /** The outcome of the `password` path, in terms of the submitted value. */
  lemma PasswordRawOutcome(raw: Option<string>)
    ensures FirstViolation(TrimValue(raw), PasswordRules, 0) ==
      if raw.None? || Trim(raw.value) == [] then Some(Missing)
      else if JsLength(Trim(raw.value)) < MinPasswordLength then Some(TooShort(MinPasswordLength))
      else if Includes(Lower(Trim(raw.value)), "password") then Some(Invalid(PasswordContainsPassword))
      else None
  {
    PasswordOutcome(TrimValue(raw));
  }

  /**
   * `confirmPassword` is required and, untrimmed, must equal the trimmed
   * `password`; an absent `password` never matches.
   */
  lemma ConfirmPasswordRule(c: Candidate, isEmail: string -> bool, x: Violation)
    ensures Reported(c, isEmail, FieldError(ConfirmPassword, x)) <==>
      (x == Missing && !Filled(c.confirmPassword))
      || (x == Invalid(PasswordsDoNotMatch) && Filled(c.confirmPassword)
          && (c.password.None? || c.confirmPassword.value != Trim(c.password.value)))
  {
    var pw := TrimValue(c.password);
    ConfirmPasswordOutcome(c.confirmPassword, pw);
    ReportedAt(c, isEmail, ConfirmPassword, x, FirstViolation(c.confirmPassword, ConfirmPasswordRules(pw), 0));
  }

  /** `gender` is required and must be one of "male", "female", "other", compared as written. */
  lemma GenderRule(c: Candidate, isEmail: string -> bool, x: Violation)
    ensures Reported(c, isEmail, FieldError(Gender, x)) <==>
      (x == Missing && !Filled(c.gender))
      || (x == NotInEnum && Filled(c.gender) && c.gender.value !in Genders)
  {
    GenderOutcome(c.gender);
    ReportedAt(c, isEmail, Gender, x, FirstViolation(c.gender, GenderRules, 0));
  }

  /** `phoneNumber` is required and must be exactly ten decimal digits. */
  lemma PhoneRule(c: Candidate, isEmail: string -> bool, x: Violation)
    ensures Reported(c, isEmail, FieldError(PhoneNumber, x)) <==>
      (x == Missing && !Filled(c.phoneNumber))
      || (x == Invalid(PhoneNotTenDigits) && Filled(c.phoneNumber) && !IsTenDigitPhone(c.phoneNumber.value))
  {
    PhoneOutcome(c.phoneNumber);
    ReportedAt(c, isEmail, PhoneNumber, x, FirstViolation(c.phoneNumber, PhoneRules, 0));
  }

  /** `paymentInformation.cardNumber` is required and exactly 16 characters long. */
  lemma CardNumberRule(c: Candidate, isEmail: string -> bool, x: Violation)
    ensures var v := c.paymentInformation.cardNumber;
      Reported(c, isEmail, FieldError(CardNumber, x)) <==>
        (x == Missing && !Filled(v))
        || (x == TooShort(CardNumberLength) && Filled(v) && JsLength(v.value) < CardNumberLength)
        || (x == TooLong(CardNumberLength) && v.Some? && JsLength(v.value) > CardNumberLength)
  {
    var v := c.paymentInformation.cardNumber;
    CardNumberOutcome(v);
    ReportedAt(c, isEmail, CardNumber, x, FirstViolation(v, CardNumberRules, 0));
  }

  /** `paymentInformation.cvv` is required and 3 or 4 characters long. */
  lemma CvvRule(c: Candidate, isEmail: string -> bool, x: Violation)
    ensures var v := c.paymentInformation.cvv;
      Reported(c, isEmail, FieldError(Cvv, x)) <==>
        (x == Missing && !Filled(v))
        || (x == TooShort(MinCvvLength) && Filled(v) && JsLength(v.value) < MinCvvLength)
        || (x == TooLong(MaxCvvLength) && v.Some? && JsLength(v.value) > MaxCvvLength)
  {
    var v := c.paymentInformation.cvv;
    CvvOutcome(v);
    ReportedAt(c, isEmail, Cvv, x, FirstViolation(v, CvvRules, 0));
  }

  /** The string paths whose only validator is `required`. */
  predicate IsRequiredText(p: Path)
  {
    p in {Address, CardHolderName, Question1, Answer1, Question2, Answer2, UserIdentification}
  }

  /** The submitted value of a path whose only validator is `required`. */
  function RawText(c: Candidate, p: Path): Option<string>
    requires IsRequiredText(p)
  {
    match p
    case Address => c.address
    case CardHolderName => c.paymentInformation.cardHolderName
    case Question1 => c.securityQuestions.question1
    case Answer1 => c.securityQuestions.answer1
    case Question2 => c.securityQuestions.question2
    case Answer2 => c.securityQuestions.answer2
    case UserIdentification => c.userIdentification
  }

  /**
   * `address`, `paymentInformation.cardHolderName`, the two questions and
   * answers of `securityQuestions` and `userIdentification` are required
   * and nothing else: an empty string counts as missing.
   */
  lemma RequiredTextRule(c: Candidate, isEmail: string -> bool, p: Path, x: Violation)
    requires IsRequiredText(p)
    ensures Reported(c, isEmail, FieldError(p, x)) <==> x == Missing && !Filled(RawText(c, p))
  {
    var v := RawText(c, p);
    RequiredOnlyOutcome(v);
    assert PathResult(NewDocument(c), isEmail, p) == FirstViolation(v, RequiredOnly, 0) by {
      match p
      case Address =>
      case CardHolderName =>
      case Question1 =>
      case Answer1 =>
      case Question2 =>
      case Answer2 =>
      case UserIdentification =>
    }
    ReportedAt(c, isEmail, p, x, FirstViolation(v, RequiredOnly, 0));
  }

  /** The `Date` and `Boolean` paths, which need only be present. */
  predicate IsRequiredValue(p: Path)
  {
    p in {Dob, ExpirationDate, TermsAndConditions, PrivacyPolicy}
  }

  /** A value was submitted for a `Date` or `Boolean` path. */
  predicate RawPresent(c: Candidate, p: Path)
    requires IsRequiredValue(p)
  {
    match p
    case Dob => c.dob.Some?
    case ExpirationDate => c.paymentInformation.expirationDate.Some?
    case TermsAndConditions => c.termsAndConditions.Some?
    case PrivacyPolicy => c.privacyPolicy.Some?
  }

  /**
   * `dob`, `paymentInformation.expirationDate`, `termsAndConditions` and
   * `privacyPolicy` are required and nothing else: `false` is a value.
   */
  lemma RequiredValueRule(c: Candidate, isEmail: string -> bool, p: Path, x: Violation)
    requires IsRequiredValue(p)
    ensures Reported(c, isEmail, FieldError(p, x)) <==> x == Missing && !RawPresent(c, p)
  {
    var r := if RawPresent(c, p) then None else Some(Missing);
    assert PathResult(NewDocument(c), isEmail, p) == r by {
      match p
      case Dob =>
      case ExpirationDate =>
      case TermsAndConditions =>
      case PrivacyPolicy =>
    }
    ReportedAt(c, isEmail, p, x, r);
  }

  /**
   * Every entry of `tokens` needs a non-empty `token`, and that is the only
   * error an entry can have; an absent `tokens` is the empty array.
   */
  lemma TokenRule(c: Candidate, isEmail: string -> bool, i: nat, x: Violation)
    ensures Reported(c, isEmail, FieldError(TokenAt(i), x)) <==>
      x == Missing && c.tokens.Some? && i < |c.tokens.value| && !Filled(c.tokens.value[i].token)
  {
    var d := NewDocument(c);
    assert TokensOf(d) == if c.tokens.Some? then c.tokens.value else [];
    if c.tokens.Some? && i < |c.tokens.value| {
      var v := c.tokens.value[i].token;
      RequiredOnlyOutcome(v);
      ReportedAt(c, isEmail, TokenAt(i), x, FirstViolation(v, RequiredOnly, 0));
    } else {
      ReportedIff(c, isEmail, FieldError(TokenAt(i), x));
    }
  }
}
