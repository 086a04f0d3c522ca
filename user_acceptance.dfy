/**
 * When the `User` schema accepts a candidate, stated on the submitted values
 * alone: one condition per path, the field-by-field predicate `Acceptable`,
 * and the proof that validation succeeds exactly when it holds.
 */
module UserAcceptance {
  import opened Wrappers
  import opened JsString
  import opened UserModel
  import opened UserModelProperties

  // ---------------------------------------------------------------------------
  // What each path needs of the submitted value.
  // ---------------------------------------------------------------------------

  /** A name that, once trimmed, is non-empty and at most 50 characters long. */
  predicate NameOk(raw: Option<string>)
  {
    raw.Some? && 0 < JsLength(Trim(raw.value)) <= MaxNameLength
  }

  /** An e-mail that, once trimmed and lower-cased, is non-empty and passes the syntax test. */
  predicate EmailOk(raw: Option<string>, isEmail: string -> bool)
  {
    raw.Some? && NormalizeEmail(raw.value) != [] && isEmail(NormalizeEmail(raw.value))
  }

  /** A password that, once trimmed, has at least 6 characters and no "password" in any letter case. */
  predicate PasswordOk(raw: Option<string>)
  {
    raw.Some? && JsLength(Trim(raw.value)) >= MinPasswordLength && !Includes(Lower(Trim(raw.value)), "password")
  }

  /** A confirmation that, as submitted, equals the trimmed password. */
  predicate ConfirmOk(confirm: Option<string>, password: Option<string>)
  {
    Filled(confirm) && password.Some? && confirm.value == Trim(password.value)
  }

  predicate GenderOk(raw: Option<string>)
  {
    Filled(raw) && raw.value in Genders
  }

  predicate PhoneOk(raw: Option<string>)
  {
    Filled(raw) && IsTenDigitPhone(raw.value)
  }

  predicate CardNumberOk(raw: Option<string>)
  {
    raw.Some? && JsLength(raw.value) == CardNumberLength
  }

  predicate CvvOk(raw: Option<string>)
  {
    raw.Some? && MinCvvLength <= JsLength(raw.value) <= MaxCvvLength
  }

  /** Every submitted token entry has a non-empty `token`; no `tokens` at all is fine. */
  predicate TokensOk(tokens: Option<seq<TokenInput>>)
  {
    tokens.Some? ==> forall i :: 0 <= i < |tokens.value| ==> Filled(tokens.value[i].token)
  }

  /** The rules of the schema, stated directly on the submitted candidate. */
  predicate Acceptable(c: Candidate, isEmail: string -> bool)
  {
    && NameOk(c.firstName) && NameOk(c.lastName) && EmailOk(c.email, isEmail)
    && PasswordOk(c.password) && ConfirmOk(c.confirmPassword, c.password)
    && c.dob.Some? && GenderOk(c.gender) && PhoneOk(c.phoneNumber) && Filled(c.address)
    && CardNumberOk(c.paymentInformation.cardNumber) && Filled(c.paymentInformation.cardHolderName)
    && c.paymentInformation.expirationDate.Some? && CvvOk(c.paymentInformation.cvv)
    && Filled(c.securityQuestions.question1) && Filled(c.securityQuestions.answer1)
    && Filled(c.securityQuestions.question2) && Filled(c.securityQuestions.answer2)
    && c.termsAndConditions.Some? && c.privacyPolicy.Some? && Filled(c.userIdentification)
    && TokensOk(c.tokens)
  }

  /** The requirement of `Acceptable` that concerns path `p`. */
  predicate PathOk(c: Candidate, isEmail: string -> bool, p: Path)
  {
    match p
    case FirstName => NameOk(c.firstName)
    case LastName => NameOk(c.lastName)
    case Email => EmailOk(c.email, isEmail)
    case Password => PasswordOk(c.password)
    case ConfirmPassword => ConfirmOk(c.confirmPassword, c.password)
    case Dob => c.dob.Some?
    case Gender => GenderOk(c.gender)
    case PhoneNumber => PhoneOk(c.phoneNumber)
    case Address => Filled(c.address)
    case CardNumber => CardNumberOk(c.paymentInformation.cardNumber)
    case CardHolderName => Filled(c.paymentInformation.cardHolderName)
    case ExpirationDate => c.paymentInformation.expirationDate.Some?
    case Cvv => CvvOk(c.paymentInformation.cvv)
    case Question1 => Filled(c.securityQuestions.question1)
    case Answer1 => Filled(c.securityQuestions.answer1)
    case Question2 => Filled(c.securityQuestions.question2)
    case Answer2 => Filled(c.securityQuestions.answer2)
    case TermsAndConditions => c.termsAndConditions.Some?
    case PrivacyPolicy => c.privacyPolicy.Some?
    case UserIdentification => Filled(c.userIdentification)
    case TokenAt(i) => c.tokens.Some? && i < |c.tokens.value| ==> Filled(c.tokens.value[i].token)
  }

  // ---------------------------------------------------------------------------
  // Acceptance.
  // ---------------------------------------------------------------------------

  /** A path of the built document passes exactly when the submitted value meets that path's requirement. */
  lemma PathPassIff(c: Candidate, isEmail: string -> bool, p: Path)
    ensures PathResult(NewDocument(c), isEmail, p).None? <==> PathOk(c, isEmail, p)
  {
    match p
    case FirstName => NamePassIff(c, isEmail, FirstName, c.firstName);
    case LastName => NamePassIff(c, isEmail, LastName, c.lastName);
    case Email => EmailPassIff(c, isEmail);
    case Password => PasswordPassIff(c, isEmail);
    case ConfirmPassword => ConfirmPassIff(c, isEmail);
    case Gender => GenderOutcome(c.gender);
    case PhoneNumber => PhoneOutcome(c.phoneNumber);
    case CardNumber => CardNumberOutcome(c.paymentInformation.cardNumber);
    case Cvv => CvvOutcome(c.paymentInformation.cvv);
    case TokenAt(i) =>
      if c.tokens.Some? && i < |c.tokens.value| {
        RequiredOnlyOutcome(c.tokens.value[i].token);
      }
    case _ => RequiredPassIff(c, isEmail, p);
  }

  lemma NamePassIff(c: Candidate, isEmail: string -> bool, p: Path, raw: Option<string>)
    requires (p == FirstName && raw == c.firstName) || (p == LastName && raw == c.lastName)
    ensures PathResult(NewDocument(c), isEmail, p).None? <==> NameOk(raw)
  {
    NameOutcome(TrimValue(raw));
  }

  lemma EmailPassIff(c: Candidate, isEmail: string -> bool)
    ensures PathResult(NewDocument(c), isEmail, Email).None? <==> EmailOk(c.email, isEmail)
  {
    EmailOutcome(NormalizeEmailValue(c.email), isEmail);
  }

  lemma PasswordPassIff(c: Candidate, isEmail: string -> bool)
    ensures PathResult(NewDocument(c), isEmail, Password).None? <==> PasswordOk(c.password)
  {
    var r := FirstViolation(TrimValue(c.password), PasswordRules, 0);
    assert PathResult(NewDocument(c), isEmail, Password) == r;
    PasswordRawOutcome(c.password);
    assert r.None? <==> PasswordOk(c.password);
  }

  lemma ConfirmPassIff(c: Candidate, isEmail: string -> bool)
    ensures PathResult(NewDocument(c), isEmail, ConfirmPassword).None? <==> ConfirmOk(c.confirmPassword, c.password)
  {
    ConfirmPasswordOutcome(c.confirmPassword, TrimValue(c.password));
  }

  /** The paths with `required` as their only validator pass exactly when a value (a non-empty one, for strings) is present. */
  lemma RequiredPassIff(c: Candidate, isEmail: string -> bool, p: Path)
    requires IsRequiredText(p) || IsRequiredValue(p)
    ensures PathResult(NewDocument(c), isEmail, p).None? <==> PathOk(c, isEmail, p)
  {
    if IsRequiredText(p) {
      var v := RawText(c, p);
      RequiredOnlyOutcome(v);
      assert PathResult(NewDocument(c), isEmail, p) == FirstViolation(v, RequiredOnly, 0) by {
        match p
        case Address =>
        case CardHolderName =>
        case Question1 =>
        case Answer1 =>
        case Question2 =>
        case Answer2 =>
        case UserIdentification =>
      }
      assert PathOk(c, isEmail, p) <==> Filled(v) by {
        match p
        case Address =>
        case CardHolderName =>
        case Question1 =>
        case Answer1 =>
        case Question2 =>
        case Answer2 =>
        case UserIdentification =>
      }
    } else {
      match p
      case Dob =>
      case ExpirationDate =>
      case TermsAndConditions =>
      case PrivacyPolicy =>
    }
  }

  /** Every path's requirement holds on a candidate that meets `Acceptable`. */
  lemma AcceptablePathOk(c: Candidate, isEmail: string -> bool, p: Path)
    requires Acceptable(c, isEmail)
    ensures PathOk(c, isEmail, p)
  {
    if p.TokenAt? && c.tokens.Some? && p.index < |c.tokens.value| {
      assert Filled(c.tokens.value[p.index].token);
    }
  }

  /** On every path that passes, the requirements on `firstName`, `lastName`, `email`, `password` and `confirmPassword` hold. */
  lemma AcceptedIdentity(c: Candidate, isEmail: string -> bool)
    requires forall p :: OnSchema(NewDocument(c), p) ==> PathResult(NewDocument(c), isEmail, p).None?
    ensures NameOk(c.firstName)
      && NameOk(c.lastName)
      && EmailOk(c.email, isEmail)
      && PasswordOk(c.password)
      && ConfirmOk(c.confirmPassword, c.password)
  {
    NamePassIff(c, isEmail, FirstName, c.firstName);
    NamePassIff(c, isEmail, LastName, c.lastName);
    EmailPassIff(c, isEmail);
    PasswordPassIff(c, isEmail);
    ConfirmPassIff(c, isEmail);
  }

  /** On every path that passes, the requirements on `dob`, `gender`, `phoneNumber`, `address` and `userIdentification` hold. */
  lemma AcceptedProfile(c: Candidate, isEmail: string -> bool)
    requires forall p :: OnSchema(NewDocument(c), p) ==> PathResult(NewDocument(c), isEmail, p).None?
    ensures c.dob.Some?
      && GenderOk(c.gender)
      && PhoneOk(c.phoneNumber)
      && Filled(c.address)
      && Filled(c.userIdentification)
  {
    PathPassIff(c, isEmail, Dob);
    PathPassIff(c, isEmail, Gender);
    PathPassIff(c, isEmail, PhoneNumber);
    PathPassIff(c, isEmail, Address);
    PathPassIff(c, isEmail, UserIdentification);
  }

  /** On every path that passes, the requirements on `paymentInformation` hold. */
  lemma AcceptedPayment(c: Candidate, isEmail: string -> bool)
    requires forall p :: OnSchema(NewDocument(c), p) ==> PathResult(NewDocument(c), isEmail, p).None?
    ensures CardNumberOk(c.paymentInformation.cardNumber)
      && Filled(c.paymentInformation.cardHolderName)
      && c.paymentInformation.expirationDate.Some?
      && CvvOk(c.paymentInformation.cvv)
  {
    PathPassIff(c, isEmail, CardNumber);
    PathPassIff(c, isEmail, CardHolderName);
    PathPassIff(c, isEmail, ExpirationDate);
    PathPassIff(c, isEmail, Cvv);
  }

  /** On every path that passes, the requirements on `securityQuestions`, `termsAndConditions` and `privacyPolicy` hold. */
  lemma AcceptedConsent(c: Candidate, isEmail: string -> bool)
    requires forall p :: OnSchema(NewDocument(c), p) ==> PathResult(NewDocument(c), isEmail, p).None?
    ensures Filled(c.securityQuestions.question1)
      && Filled(c.securityQuestions.answer1)
      && Filled(c.securityQuestions.question2)
      && Filled(c.securityQuestions.answer2)
      && c.termsAndConditions.Some?
      && c.privacyPolicy.Some?
  {
    PathPassIff(c, isEmail, Question1);
    PathPassIff(c, isEmail, Answer1);
    PathPassIff(c, isEmail, Question2);
    PathPassIff(c, isEmail, Answer2);
    PathPassIff(c, isEmail, TermsAndConditions);
    PathPassIff(c, isEmail, PrivacyPolicy);
  }

  /** On every path that passes, every submitted token entry is non-empty. */
  lemma AcceptedTokens(c: Candidate, isEmail: string -> bool)
    requires forall p :: OnSchema(NewDocument(c), p) ==> PathResult(NewDocument(c), isEmail, p).None?
    ensures TokensOk(c.tokens)
  {
    if c.tokens.Some? {
      forall i | 0 <= i < |c.tokens.value| ensures Filled(c.tokens.value[i].token) {
        PathPassIff(c, isEmail, TokenAt(i));
      }
    }
  }

  /**
   * The schema accepts a candidate exactly when the candidate meets every
   * rule of the schema, stated on the submitted values.
   */
  lemma AcceptsExactly(c: Candidate, isEmail: string -> bool)
    ensures Validate(c, isEmail).Success? <==> Acceptable(c, isEmail)
  {
    var d := NewDocument(c);
    if Validate(c, isEmail).Success? {
      AcceptedIdentity(c, isEmail);
      AcceptedProfile(c, isEmail);
      AcceptedPayment(c, isEmail);
      AcceptedConsent(c, isEmail);
      AcceptedTokens(c, isEmail);
    }
    if Acceptable(c, isEmail) {
      forall p | OnSchema(d, p) ensures PathResult(d, isEmail, p).None? {
        AcceptablePathOk(c, isEmail, p);
        PathPassIff(c, isEmail, p);
      }
    }
  }
}
