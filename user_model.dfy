/**
 * The `User` schema: its field definitions, the validators attached to each
 * path, the setters (`trim`, `lowercase`) and defaults applied when a document
 * is built from a candidate payload, and `Validate`, which either stores the
 * record or reports the failing paths.
 *
 * The persistence framework's behaviour that the schema relies on is modelled
 * explicitly: setters run when a value is assigned, before any validator; on
 * each path the `required` validator runs first and the other validators
 * follow in the order their options are declared, the first failure being
 * that path's error; validators other than `required` skip an absent value;
 * a required string must be non-empty, a required boolean may be `false`;
 * array paths default to the empty array; and errors from all paths are
 * collected, at most one per path.
 */
module UserModel {
  import opened Wrappers
  import opened JsString

  /** A JavaScript `Date`, kept opaque: the schema only requires that one is present. */
  datatype Date = Date(epochMillis: int)

  // ---------------------------------------------------------------------------
  // The candidate payload, as supplied by a registration or update workflow.
  // `None` is an `undefined` value; an absent nested object is the nested
  // record whose fields are all `None`.
  // ---------------------------------------------------------------------------

  datatype PaymentInput = PaymentInput(
    cardNumber: Option<string>,
    cardHolderName: Option<string>,
    expirationDate: Option<Date>,
    cvv: Option<string>)

  datatype SecurityInput = SecurityInput(
    question1: Option<string>,
    answer1: Option<string>,
    question2: Option<string>,
    answer2: Option<string>)

  datatype TokenInput = TokenInput(token: Option<string>)

  datatype Candidate = Candidate(
    firstName: Option<string>,
    lastName: Option<string>,
    email: Option<string>,
    password: Option<string>,
    confirmPassword: Option<string>,
    dob: Option<Date>,
    gender: Option<string>,
    phoneNumber: Option<string>,
    address: Option<string>,
    profilePicture: Option<string>,
    paymentInformation: PaymentInput,
    securityQuestions: SecurityInput,
    termsAndConditions: Option<bool>,
    privacyPolicy: Option<bool>,
    interests: Option<seq<string>>,
    userIdentification: Option<string>,
    additionalInfo: Option<string>,
    isAdmin: Option<bool>,
    tokens: Option<seq<TokenInput>>)

  // ---------------------------------------------------------------------------
  // The stored record: every required field present, optional ones as Option.
  // ---------------------------------------------------------------------------

  datatype Payment = Payment(cardNumber: string, cardHolderName: string, expirationDate: Date, cvv: string)

  datatype Security = Security(question1: string, answer1: string, question2: string, answer2: string)

  datatype Token = Token(token: string)

  datatype User = User(
    firstName: string,
    lastName: string,
    email: string,
    password: string,
    confirmPassword: string,
    dob: Date,
    gender: string,
    phoneNumber: string,
    address: string,
    profilePicture: Option<string>,
    paymentInformation: Payment,
    securityQuestions: Security,
    termsAndConditions: bool,
    privacyPolicy: bool,
    interests: seq<string>,
    userIdentification: string,
    additionalInfo: Option<string>,
    isAdmin: bool,
    tokens: seq<Token>)

  // ---------------------------------------------------------------------------
  // Constants of the schema.
  // ---------------------------------------------------------------------------

  const MaxNameLength: nat := 50
  const MinPasswordLength: nat := 6
  const CardNumberLength: nat := 16
  const MinCvvLength: nat := 3
  const MaxCvvLength: nat := 4
  const Genders: seq<string> := ["male", "female", "other"]

  const InvalidEmail: string := "Invalid email address"
  const PasswordContainsPassword: string := "Password should not contain \"password\""
  const PasswordsDoNotMatch: string := "Passwords do not match"
  const PhoneNotTenDigits: string := "Phone number should be a 10-digit number"

  // ---------------------------------------------------------------------------
  // Validators and their outcome.
  // ---------------------------------------------------------------------------

  /** One validator attached to a string path. */
  datatype Validator =
    | Required
    | MinLength(min: nat)
    | MaxLength(max: nat)
    | Enum(values: seq<string>)
    | Custom(test: string -> bool, message: string)

  /** Why a path failed; `Invalid` carries the message of a custom validator. */
  datatype Violation =
    | Missing
    | TooShort(min: nat)
    | TooLong(max: nat)
    | NotInEnum
    | Invalid(message: string)

  /** The paths of the schema that carry validators. */
  datatype Path =
    | FirstName | LastName | Email | Password | ConfirmPassword | Dob | Gender | PhoneNumber | Address
    | CardNumber | CardHolderName | ExpirationDate | Cvv
    | Question1 | Answer1 | Question2 | Answer2
    | TermsAndConditions | PrivacyPolicy | UserIdentification
    | TokenAt(index: nat)

  datatype FieldError = FieldError(path: Path, violation: Violation)

  /**
   * Whether validator `val` accepts the (already set) value `v`; all but
   * `Required` accept an absent value, and lengths are JavaScript lengths.
   */
  predicate Passes(v: Option<string>, val: Validator)
  {
    match val
    case Required => v.Some? && v.value != []
    case MinLength(n) => v.None? || JsLength(v.value) >= n
    case MaxLength(n) => v.None? || JsLength(v.value) <= n
    case Enum(values) => v.None? || v.value in values
    case Custom(test, _) => v.None? || test(v.value)
  }

  function ViolationOf(val: Validator): Violation
  {
    match val
    case Required => Missing
    case MinLength(n) => TooShort(n)
    case MaxLength(n) => TooLong(n)
    case Enum(_) => NotInEnum
    case Custom(_, message) => Invalid(message)
  }

  /** Runs the validators `vs[from..]` in order on `v`, stopping at the first that fails. */
  function FirstViolation(v: Option<string>, vs: seq<Validator>, from: nat): Option<Violation>
    decreases |vs| - from
  {
    if from >= |vs| then None
    else if !Passes(v, vs[from]) then Some(ViolationOf(vs[from]))
    else FirstViolation(v, vs, from + 1)
  }

  /**
   * The validators of a path report nothing when all of them pass, and
   * otherwise the violation of the first one that fails.
   */
  lemma {:induction false} FirstViolationSpec(v: Option<string>, vs: seq<Validator>, from: nat)
    ensures FirstViolation(v, vs, from).None? <==> forall i :: from <= i < |vs| ==> Passes(v, vs[i])
    ensures FirstViolation(v, vs, from).Some? ==>
      exists i :: from <= i < |vs| && !Passes(v, vs[i]) && FirstViolation(v, vs, from).value == ViolationOf(vs[i])
                  && forall j :: from <= j < i ==> Passes(v, vs[j])
    decreases |vs| - from
  {
    if from < |vs| && Passes(v, vs[from]) {
      FirstViolationSpec(v, vs, from + 1);
      if FirstViolation(v, vs, from).Some? {
        var i :| from + 1 <= i < |vs| && !Passes(v, vs[i]) && FirstViolation(v, vs, from).value == ViolationOf(vs[i])
                 && forall j :: from + 1 <= j < i ==> Passes(v, vs[j]);
        assert forall j :: from <= j < i ==> Passes(v, vs[j]);
      }
    }
  }

  /** The `required` validator of a `Date` or `Boolean` path: any present value passes, `false` included. */
  function RequireValue<T>(v: Option<T>): Option<Violation>
  {
    if v.None? then Some(Missing) else None
  }

  /** Running a one-validator list. */
  lemma RunOne(v: Option<string>, a: Validator)
    ensures FirstViolation(v, [a], 0) == if Passes(v, a) then None else Some(ViolationOf(a))
  {
    assert FirstViolation(v, [a], 1) == None;
  }

  /** Running a two-validator list: the first failure wins. */
  lemma RunTwo(v: Option<string>, a: Validator, b: Validator)
    ensures FirstViolation(v, [a, b], 0) ==
      if !Passes(v, a) then Some(ViolationOf(a))
      else if !Passes(v, b) then Some(ViolationOf(b))
      else None
  {
    assert FirstViolation(v, [a, b], 2) == None;
    assert FirstViolation(v, [a, b], 1) == if Passes(v, b) then None else Some(ViolationOf(b));
  }

  /** Running a three-validator list: the first failure wins. */
  lemma RunThree(v: Option<string>, a: Validator, b: Validator, c: Validator)
    ensures FirstViolation(v, [a, b, c], 0) ==
      if !Passes(v, a) then Some(ViolationOf(a))
      else if !Passes(v, b) then Some(ViolationOf(b))
      else if !Passes(v, c) then Some(ViolationOf(c))
      else None
  {
    assert FirstViolation(v, [a, b, c], 3) == None;
    assert FirstViolation(v, [a, b, c], 2) == if Passes(v, c) then None else Some(ViolationOf(c));
  }

  // ---------------------------------------------------------------------------
  // The validators of each path, in the order they run.
  // ---------------------------------------------------------------------------

  /** The content check of `password`: its lower-cased form does not include "password". */
  predicate PasswordIsSafe(s: string)
  {
    !Includes(Lower(s), "password")
  }

  /** The check of `phoneNumber`: `/^\d{10}$/`. */
  predicate IsTenDigitPhone(s: string)
  {
    MatchesDigits(s, 10)
  }

  const NameRules: seq<Validator> := [Required, MaxLength(MaxNameLength)]
  const PasswordRules: seq<Validator> := [Required, MinLength(MinPasswordLength), Custom(PasswordIsSafe, PasswordContainsPassword)]
  const GenderRules: seq<Validator> := [Required, Enum(Genders)]
  const PhoneRules: seq<Validator> := [Required, Custom(IsTenDigitPhone, PhoneNotTenDigits)]
  const CardNumberRules: seq<Validator> := [Required, MinLength(CardNumberLength), MaxLength(CardNumberLength)]
  const CvvRules: seq<Validator> := [Required, MinLength(MinCvvLength), MaxLength(MaxCvvLength)]
  const RequiredOnly: seq<Validator> := [Required]

  /** `email` is checked by an external e-mail syntax test, passed in as `isEmail`. */
  function EmailRules(isEmail: string -> bool): seq<Validator>
  {
    [Required, Custom(isEmail, InvalidEmail)]
  }

  /** `confirmPassword` is compared with the document's `password`, which has already been trimmed. */
  function ConfirmPasswordRules(password: Option<string>): seq<Validator>
  {
    [Required, Custom(s => Some(s) == password, PasswordsDoNotMatch)]
  }

  // ---------------------------------------------------------------------------
  // Setters and defaults: building the document from a candidate.
  // ---------------------------------------------------------------------------

  function TrimValue(v: Option<string>): Option<string>
  {
    match v
    case None => None
    case Some(s) => Some(Trim(s))
  }

  /** The `trim` and `lowercase` setters of `email`. */
  function NormalizeEmail(s: string): (r: string)
    ensures NoUpper(r) && NoEdgeWhite(r)
    ensures |r| <= |s|
  {
    LowerKeepsWhite(Trim(s));
    Lower(Trim(s))
  }

  function NormalizeEmailValue(v: Option<string>): Option<string>
  {
    match v
    case None => None
    case Some(s) => Some(NormalizeEmail(s))
  }

  /**
   * The document built from candidate `c`: the `trim` setters of `firstName`,
   * `lastName`, `email` and `password` and the `lowercase` setter of `email`
   * have run, `isAdmin` defaults to `false`, and the two array paths to `[]`;
   * every other path keeps the submitted value.
   */
  function NewDocument(c: Candidate): (d: Candidate)
    ensures d.isAdmin.Some? && d.interests.Some? && d.tokens.Some?
    ensures d.isAdmin.value == (c.isAdmin == Some(true))
    ensures d.firstName.Some? <==> c.firstName.Some?
    ensures d.firstName.Some? ==> NoEdgeWhite(d.firstName.value)
    ensures d.email.Some? ==> NoUpper(d.email.value) && NoEdgeWhite(d.email.value)
  {
    c.(firstName := TrimValue(c.firstName),
       lastName := TrimValue(c.lastName),
       email := NormalizeEmailValue(c.email),
       password := TrimValue(c.password),
       isAdmin := Some(if c.isAdmin.Some? then c.isAdmin.value else false),
       interests := Some(if c.interests.Some? then c.interests.value else []),
       tokens := Some(if c.tokens.Some? then c.tokens.value else []))
  }

  /** The document built from `c`, path by path: what the setters and defaults change, and that nothing else changes. */
  lemma NewDocumentShape(c: Candidate)
    ensures var d := NewDocument(c);
      && (d.firstName.Some? <==> c.firstName.Some?)
      && (d.firstName.Some? ==> NoEdgeWhite(d.firstName.value) && |d.firstName.value| <= |c.firstName.value|)
      && (d.lastName.Some? <==> c.lastName.Some?)
      && (d.lastName.Some? ==> NoEdgeWhite(d.lastName.value) && |d.lastName.value| <= |c.lastName.value|)
      && (d.password.Some? <==> c.password.Some?)
      && (d.password.Some? ==> NoEdgeWhite(d.password.value) && |d.password.value| <= |c.password.value|)
      && (d.email.Some? <==> c.email.Some?)
      && (d.email.Some? ==> NoUpper(d.email.value) && NoEdgeWhite(d.email.value) && |d.email.value| <= |c.email.value|)
      && d.isAdmin == Some(c.isAdmin == Some(true))
      && (c.interests.Some? ==> d.interests == c.interests) && (c.interests.None? ==> d.interests == Some([]))
      && (c.tokens.Some? ==> d.tokens == c.tokens) && (c.tokens.None? ==> d.tokens == Some([]))
      && d.confirmPassword == c.confirmPassword && d.dob == c.dob && d.gender == c.gender
      && d.phoneNumber == c.phoneNumber && d.address == c.address && d.profilePicture == c.profilePicture
      && d.paymentInformation == c.paymentInformation && d.securityQuestions == c.securityQuestions
      && d.termsAndConditions == c.termsAndConditions && d.privacyPolicy == c.privacyPolicy
      && d.userIdentification == c.userIdentification && d.additionalInfo == c.additionalInfo
  {
  }

  // ---------------------------------------------------------------------------
  // Validation of a document.
  // ---------------------------------------------------------------------------

  function TokensOf(d: Candidate): seq<TokenInput>
  {
    if d.tokens.Some? then d.tokens.value else []
  }

  /** The error of path `p` in document `d`, if any. */
  function PathResult(d: Candidate, isEmail: string -> bool, p: Path): Option<Violation>
  {
    match p
    case FirstName => FirstViolation(d.firstName, NameRules, 0)
    case LastName => FirstViolation(d.lastName, NameRules, 0)
    case Email => FirstViolation(d.email, EmailRules(isEmail), 0)
    case Password => FirstViolation(d.password, PasswordRules, 0)
    case ConfirmPassword => FirstViolation(d.confirmPassword, ConfirmPasswordRules(d.password), 0)
    case Dob => RequireValue(d.dob)
    case Gender => FirstViolation(d.gender, GenderRules, 0)
    case PhoneNumber => FirstViolation(d.phoneNumber, PhoneRules, 0)
    case Address => FirstViolation(d.address, RequiredOnly, 0)
    case CardNumber => FirstViolation(d.paymentInformation.cardNumber, CardNumberRules, 0)
    case CardHolderName => FirstViolation(d.paymentInformation.cardHolderName, RequiredOnly, 0)
    case ExpirationDate => RequireValue(d.paymentInformation.expirationDate)
    case Cvv => FirstViolation(d.paymentInformation.cvv, CvvRules, 0)
    case Question1 => FirstViolation(d.securityQuestions.question1, RequiredOnly, 0)
    case Answer1 => FirstViolation(d.securityQuestions.answer1, RequiredOnly, 0)
    case Question2 => FirstViolation(d.securityQuestions.question2, RequiredOnly, 0)
    case Answer2 => FirstViolation(d.securityQuestions.answer2, RequiredOnly, 0)
    case TermsAndConditions => RequireValue(d.termsAndConditions)
    case PrivacyPolicy => RequireValue(d.privacyPolicy)
    case UserIdentification => FirstViolation(d.userIdentification, RequiredOnly, 0)
    case TokenAt(i) =>
      var ts := TokensOf(d);
      if i < |ts| then FirstViolation(ts[i].token, RequiredOnly, 0) else None
  }

  /** The top-level paths in schema order. */
  const FieldPaths: seq<Path> := [
    FirstName, LastName, Email, Password, ConfirmPassword, Dob, Gender, PhoneNumber, Address,
    CardNumber, CardHolderName, ExpirationDate, Cvv,
    Question1, Answer1, Question2, Answer2,
    TermsAndConditions, PrivacyPolicy, UserIdentification]

  /** The paths `tokens.0.token`, ..., `tokens.(n-1).token`. */
  function TokenPaths(n: nat): seq<Path>
  {
    seq(n, i requires 0 <= i => TokenAt(i))
  }

  /** Every path that document `d` is validated on, each once. */
  function SchemaPaths(d: Candidate): seq<Path>
  {
    FieldPaths + TokenPaths(|TokensOf(d)|)
  }

  /** Path `p` is validated on document `d`: a top-level path, or the path of one of its tokens. */
  predicate OnSchema(d: Candidate, p: Path)
  {
    p.TokenAt? ==> p.index < |TokensOf(d)|
  }

  /** The errors of the paths `ps`, in that order: one entry for each failing path. */
  function ErrorsAt(d: Candidate, isEmail: string -> bool, ps: seq<Path>): (errs: seq<FieldError>)
    ensures forall e :: e in errs <==> e.path in ps && PathResult(d, isEmail, e.path) == Some(e.violation)
    ensures |errs| <= |ps|
  {
    if ps == [] then []
    else
      var rest := ErrorsAt(d, isEmail, ps[1..]);
      match PathResult(d, isEmail, ps[0])
      case None => rest
      case Some(x) => [FieldError(ps[0], x)] + rest
  }

  /** All errors of document `d`. */
  function Errors(d: Candidate, isEmail: string -> bool): seq<FieldError>
  {
    ErrorsAt(d, isEmail, SchemaPaths(d))
  }

  /** A document with every required path present, ready to be stored. */
  predicate Complete(d: Candidate)
  {
    && d.firstName.Some? && d.lastName.Some? && d.email.Some? && d.password.Some?
    && d.confirmPassword.Some? && d.dob.Some? && d.gender.Some? && d.phoneNumber.Some? && d.address.Some?
    && d.paymentInformation.cardNumber.Some? && d.paymentInformation.cardHolderName.Some?
    && d.paymentInformation.expirationDate.Some? && d.paymentInformation.cvv.Some?
    && d.securityQuestions.question1.Some? && d.securityQuestions.answer1.Some?
    && d.securityQuestions.question2.Some? && d.securityQuestions.answer2.Some?
    && d.termsAndConditions.Some? && d.privacyPolicy.Some? && d.userIdentification.Some?
    && d.isAdmin.Some? && d.interests.Some? && d.tokens.Some?
    && forall i :: 0 <= i < |d.tokens.value| ==> d.tokens.value[i].token.Some?
  }

  /** The stored record of a complete document. */
  function Store(d: Candidate): (u: User)
    requires Complete(d)
  {
    User(
      d.firstName.value, d.lastName.value, d.email.value, d.password.value, d.confirmPassword.value,
      d.dob.value, d.gender.value, d.phoneNumber.value, d.address.value, d.profilePicture,
      Payment(d.paymentInformation.cardNumber.value, d.paymentInformation.cardHolderName.value,
              d.paymentInformation.expirationDate.value, d.paymentInformation.cvv.value),
      Security(d.securityQuestions.question1.value, d.securityQuestions.answer1.value,
               d.securityQuestions.question2.value, d.securityQuestions.answer2.value),
      d.termsAndConditions.value, d.privacyPolicy.value, d.interests.value,
      d.userIdentification.value, d.additionalInfo, d.isAdmin.value,
      seq(|d.tokens.value|, i requires 0 <= i < |d.tokens.value| => Token(d.tokens.value[i].token.value)))
  }

  /** Each top-level path is listed in `FieldPaths`. */
  lemma FieldPathListed(p: Path)
    requires !p.TokenAt?
    ensures p in FieldPaths
  {
    var k := match p
      case FirstName => 0 case LastName => 1 case Email => 2 case Password => 3 case ConfirmPassword => 4
      case Dob => 5 case Gender => 6 case PhoneNumber => 7 case Address => 8 case CardNumber => 9
      case CardHolderName => 10 case ExpirationDate => 11 case Cvv => 12 case Question1 => 13
      case Answer1 => 14 case Question2 => 15 case Answer2 => 16 case TermsAndConditions => 17
      case PrivacyPolicy => 18 case UserIdentification => 19;
    assert FieldPaths[k] == p;
  }

  /** The paths a document is validated on are exactly those `OnSchema` admits. */
  lemma SchemaPathsIff(d: Candidate, p: Path)
    ensures p in SchemaPaths(d) <==> OnSchema(d, p)
  {
    if p.TokenAt? {
      if p in SchemaPaths(d) {
        var k :| 0 <= k < |SchemaPaths(d)| && SchemaPaths(d)[k] == p;
        assert k >= |FieldPaths|;
      }
      if p.index < |TokensOf(d)| {
        assert SchemaPaths(d)[|FieldPaths| + p.index] == p;
      }
    } else {
      FieldPathListed(p);
    }
  }

  /** In a document without errors, every path of the schema passes. */
  lemma NoErrorAt(d: Candidate, isEmail: string -> bool, p: Path)
    requires Errors(d, isEmail) == []
    requires OnSchema(d, p)
    ensures PathResult(d, isEmail, p).None?
  {
    SchemaPathsIff(d, p);
    forall x ensures PathResult(d, isEmail, p) != Some(x) {
      assert FieldError(p, x) !in Errors(d, isEmail);
    }
  }

  /** A document has no errors exactly when every path of the schema passes. */
  lemma NoErrorsIff(d: Candidate, isEmail: string -> bool)
    ensures Errors(d, isEmail) == [] <==> forall p :: OnSchema(d, p) ==> PathResult(d, isEmail, p).None?
  {
    if Errors(d, isEmail) == [] {
      forall p | OnSchema(d, p) ensures PathResult(d, isEmail, p).None? {
        NoErrorAt(d, isEmail, p);
      }
    } else {
      var e := Errors(d, isEmail)[0];
      SchemaPathsIff(d, e.path);
    }
  }

  /** A string path whose validators start with `required` and all pass holds a non-empty value. */
  lemma RequiredFirst(v: Option<string>, vs: seq<Validator>)
    requires |vs| > 0 && vs[0] == Required
    requires FirstViolation(v, vs, 0).None?
    ensures v.Some? && v.value != []
  {
    assert Passes(v, vs[0]);
  }

  /** The top-level path `p` holds a value in document `d`. */
  predicate Present(d: Candidate, p: Path)
  {
    match p
    case FirstName => d.firstName.Some?
    case LastName => d.lastName.Some?
    case Email => d.email.Some?
    case Password => d.password.Some?
    case ConfirmPassword => d.confirmPassword.Some?
    case Dob => d.dob.Some?
    case Gender => d.gender.Some?
    case PhoneNumber => d.phoneNumber.Some?
    case Address => d.address.Some?
    case CardNumber => d.paymentInformation.cardNumber.Some?
    case CardHolderName => d.paymentInformation.cardHolderName.Some?
    case ExpirationDate => d.paymentInformation.expirationDate.Some?
    case Cvv => d.paymentInformation.cvv.Some?
    case Question1 => d.securityQuestions.question1.Some?
    case Answer1 => d.securityQuestions.answer1.Some?
    case Question2 => d.securityQuestions.question2.Some?
    case Answer2 => d.securityQuestions.answer2.Some?
    case TermsAndConditions => d.termsAndConditions.Some?
    case PrivacyPolicy => d.privacyPolicy.Some?
    case UserIdentification => d.userIdentification.Some?
    case TokenAt(i) => i < |TokensOf(d)| ==> TokensOf(d)[i].token.Some?
  }

  /** Every path of the schema starts with `required`, so a path that passes holds a value. */
  lemma PassingPresent(d: Candidate, isEmail: string -> bool, p: Path)
    requires PathResult(d, isEmail, p).None?
    ensures Present(d, p)
  {
    match p
    case FirstName => RequiredFirst(d.firstName, NameRules);
    case LastName => RequiredFirst(d.lastName, NameRules);
    case Email => RequiredFirst(d.email, EmailRules(isEmail));
    case Password => RequiredFirst(d.password, PasswordRules);
    case ConfirmPassword => RequiredFirst(d.confirmPassword, ConfirmPasswordRules(d.password));
    case Dob =>
    case Gender => RequiredFirst(d.gender, GenderRules);
    case PhoneNumber => RequiredFirst(d.phoneNumber, PhoneRules);
    case Address => RequiredFirst(d.address, RequiredOnly);
    case CardNumber => RequiredFirst(d.paymentInformation.cardNumber, CardNumberRules);
    case CardHolderName => RequiredFirst(d.paymentInformation.cardHolderName, RequiredOnly);
    case ExpirationDate =>
    case Cvv => RequiredFirst(d.paymentInformation.cvv, CvvRules);
    case Question1 => RequiredFirst(d.securityQuestions.question1, RequiredOnly);
    case Answer1 => RequiredFirst(d.securityQuestions.answer1, RequiredOnly);
    case Question2 => RequiredFirst(d.securityQuestions.question2, RequiredOnly);
    case Answer2 => RequiredFirst(d.securityQuestions.answer2, RequiredOnly);
    case TermsAndConditions =>
    case PrivacyPolicy =>
    case UserIdentification => RequiredFirst(d.userIdentification, RequiredOnly);
    case TokenAt(i) =>
      if i < |TokensOf(d)| {
        RequiredFirst(TokensOf(d)[i].token, RequiredOnly);
      }
  }

  /** A document on which every path passes has every required path present. */
  lemma PassingComplete(d: Candidate, isEmail: string -> bool)
    requires d.isAdmin.Some? && d.interests.Some? && d.tokens.Some?
    requires forall p :: OnSchema(d, p) ==> PathResult(d, isEmail, p).None?
    ensures Complete(d)
  {
    forall i | 0 <= i < |d.tokens.value| ensures d.tokens.value[i].token.Some? {
      PassingPresent(d, isEmail, TokenAt(i));
    }
    PassingPersonal(d, isEmail);
    PassingContact(d, isEmail);
    PassingPayment(d, isEmail);
    PassingConsent(d, isEmail);
  }

  /** Paths `FirstName`, `LastName`, `Email`, `Password`, `ConfirmPassword` pass only when present. */
  lemma PassingPersonal(d: Candidate, isEmail: string -> bool)
    requires PathResult(d, isEmail, FirstName).None? && PathResult(d, isEmail, LastName).None? && PathResult(d, isEmail, Email).None? && PathResult(d, isEmail, Password).None? && PathResult(d, isEmail, ConfirmPassword).None?
    ensures d.firstName.Some? && d.lastName.Some? && d.email.Some? && d.password.Some? && d.confirmPassword.Some?
  {
    PassingPresent(d, isEmail, FirstName);
    PassingPresent(d, isEmail, LastName);
    PassingPresent(d, isEmail, Email);
    PassingPresent(d, isEmail, Password);
    PassingPresent(d, isEmail, ConfirmPassword);
  }

  /** Paths `Dob`, `Gender`, `PhoneNumber`, `Address`, `CardNumber` pass only when present. */
  lemma PassingContact(d: Candidate, isEmail: string -> bool)
    requires PathResult(d, isEmail, Dob).None? && PathResult(d, isEmail, Gender).None? && PathResult(d, isEmail, PhoneNumber).None? && PathResult(d, isEmail, Address).None? && PathResult(d, isEmail, CardNumber).None?
    ensures d.dob.Some? && d.gender.Some? && d.phoneNumber.Some? && d.address.Some? && d.paymentInformation.cardNumber.Some?
  {
    PassingPresent(d, isEmail, Dob);
    PassingPresent(d, isEmail, Gender);
    PassingPresent(d, isEmail, PhoneNumber);
    PassingPresent(d, isEmail, Address);
    PassingPresent(d, isEmail, CardNumber);
  }

  /** Paths `CardHolderName`, `ExpirationDate`, `Cvv`, `Question1`, `Answer1` pass only when present. */
  lemma PassingPayment(d: Candidate, isEmail: string -> bool)
    requires PathResult(d, isEmail, CardHolderName).None? && PathResult(d, isEmail, ExpirationDate).None? && PathResult(d, isEmail, Cvv).None? && PathResult(d, isEmail, Question1).None? && PathResult(d, isEmail, Answer1).None?
    ensures d.paymentInformation.cardHolderName.Some? && d.paymentInformation.expirationDate.Some? && d.paymentInformation.cvv.Some? && d.securityQuestions.question1.Some? && d.securityQuestions.answer1.Some?
  {
    PassingPresent(d, isEmail, CardHolderName);
    PassingPresent(d, isEmail, ExpirationDate);
    PassingPresent(d, isEmail, Cvv);
    PassingPresent(d, isEmail, Question1);
    PassingPresent(d, isEmail, Answer1);
  }

  /** Paths `Question2`, `Answer2`, `TermsAndConditions`, `PrivacyPolicy`, `UserIdentification` pass only when present. */
  lemma PassingConsent(d: Candidate, isEmail: string -> bool)
    requires PathResult(d, isEmail, Question2).None? && PathResult(d, isEmail, Answer2).None? && PathResult(d, isEmail, TermsAndConditions).None? && PathResult(d, isEmail, PrivacyPolicy).None? && PathResult(d, isEmail, UserIdentification).None?
    ensures d.securityQuestions.question2.Some? && d.securityQuestions.answer2.Some? && d.termsAndConditions.Some? && d.privacyPolicy.Some? && d.userIdentification.Some?
  {
    PassingPresent(d, isEmail, Question2);
    PassingPresent(d, isEmail, Answer2);
    PassingPresent(d, isEmail, TermsAndConditions);
    PassingPresent(d, isEmail, PrivacyPolicy);
    PassingPresent(d, isEmail, UserIdentification);
  }

  /**
   * Validates candidate `c` as the schema does when a new user is saved:
   * builds the document, runs every path's validators, and stores the record
   * only when no path failed; otherwise reports every failing path.
   */
  function Validate(c: Candidate, isEmail: string -> bool): (r: Result<User, seq<FieldError>>)
    ensures r.Success? <==> forall p :: OnSchema(NewDocument(c), p) ==> PathResult(NewDocument(c), isEmail, p).None?
    ensures r.Failure? ==> forall e :: e in r.error <==> OnSchema(NewDocument(c), e.path) && PathResult(NewDocument(c), isEmail, e.path) == Some(e.violation)
  {
    var d := NewDocument(c);
    var errs := Errors(d, isEmail);
    NoErrorsIff(d, isEmail);
    assert forall p :: p in SchemaPaths(d) <==> OnSchema(d, p) by {
      forall p ensures p in SchemaPaths(d) <==> OnSchema(d, p) { SchemaPathsIff(d, p); }
    }
    if errs == [] then
      PassingComplete(d, isEmail);
      Success(Store(d))
    else Failure(errs)
  }
}
