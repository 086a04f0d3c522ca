/**
 * The record the `User` schema stores: how it is derived from the submitted
 * candidate, the invariant every stored record satisfies, and the round trip
 * of a stored record through validation.
 */
module UserRecord {
  import opened Wrappers
  import opened JsString
  import opened UserModel
  import opened UserModelProperties
  import opened UserAcceptance

  /** What every stored record satisfies: the schema's rules, on normalised values. */
  predicate WellFormed(u: User, isEmail: string -> bool)
  {
    && 0 < JsLength(u.firstName) <= MaxNameLength && NoEdgeWhite(u.firstName)
    && 0 < JsLength(u.lastName) <= MaxNameLength && NoEdgeWhite(u.lastName)
    && u.email != [] && isEmail(u.email) && NoEdgeWhite(u.email) && NoUpper(u.email)
    && JsLength(u.password) >= MinPasswordLength && PasswordIsSafe(u.password) && NoEdgeWhite(u.password)
    && u.confirmPassword == u.password
    && u.gender in Genders && IsTenDigitPhone(u.phoneNumber) && u.address != []
    && JsLength(u.paymentInformation.cardNumber) == CardNumberLength && u.paymentInformation.cardHolderName != []
    && MinCvvLength <= JsLength(u.paymentInformation.cvv) <= MaxCvvLength
    && u.securityQuestions.question1 != [] && u.securityQuestions.answer1 != []
    && u.securityQuestions.question2 != [] && u.securityQuestions.answer2 != []
    && u.userIdentification != []
    && forall i :: 0 <= i < |u.tokens| ==> u.tokens[i].token != []
  }

  /**
   * `u` is the record stored for candidate `c`: names and password trimmed,
   * the e-mail trimmed and lower-cased, `isAdmin` false unless given,
   * `interests` empty unless given, and every other value as submitted.
   */
  predicate StoredFrom(c: Candidate, u: User)
  {
    && c.firstName.Some? && u.firstName == Trim(c.firstName.value)
    && c.lastName.Some? && u.lastName == Trim(c.lastName.value)
    && c.email.Some? && u.email == NormalizeEmail(c.email.value)
    && c.password.Some? && u.password == Trim(c.password.value)
    && c.confirmPassword == Some(u.confirmPassword)
    && c.dob == Some(u.dob) && c.gender == Some(u.gender) && c.phoneNumber == Some(u.phoneNumber)
    && c.address == Some(u.address) && c.profilePicture == u.profilePicture
    && c.paymentInformation.cardNumber == Some(u.paymentInformation.cardNumber)
    && c.paymentInformation.cardHolderName == Some(u.paymentInformation.cardHolderName)
    && c.paymentInformation.expirationDate == Some(u.paymentInformation.expirationDate)
    && c.paymentInformation.cvv == Some(u.paymentInformation.cvv)
    && c.securityQuestions.question1 == Some(u.securityQuestions.question1)
    && c.securityQuestions.answer1 == Some(u.securityQuestions.answer1)
    && c.securityQuestions.question2 == Some(u.securityQuestions.question2)
    && c.securityQuestions.answer2 == Some(u.securityQuestions.answer2)
    && c.termsAndConditions == Some(u.termsAndConditions) && c.privacyPolicy == Some(u.privacyPolicy)
    && u.interests == (if c.interests.Some? then c.interests.value else [])
    && c.userIdentification == Some(u.userIdentification) && c.additionalInfo == u.additionalInfo
    && u.isAdmin == (c.isAdmin == Some(true))
    && |u.tokens| == (if c.tokens.Some? then |c.tokens.value| else 0)
    && forall i :: 0 <= i < |u.tokens| ==> c.tokens.value[i].token == Some(u.tokens[i].token)
  }

  /** The record `Validate` stores is the one described by `StoredFrom`. */
  lemma StoredShape(c: Candidate, isEmail: string -> bool)
    requires Validate(c, isEmail).Success?
    ensures StoredFrom(c, Validate(c, isEmail).value)
  {
    var d := NewDocument(c);
    PassingComplete(d, isEmail);
    var u := Store(d);
    assert Validate(c, isEmail).value == u;
    assert u.paymentInformation == Payment(d.paymentInformation.cardNumber.value, d.paymentInformation.cardHolderName.value,
                                           d.paymentInformation.expirationDate.value, d.paymentInformation.cvv.value);
    assert u.securityQuestions == Security(d.securityQuestions.question1.value, d.securityQuestions.answer1.value,
                                           d.securityQuestions.question2.value, d.securityQuestions.answer2.value);
  }

  /** An absent `isAdmin` is stored as `false`. */
  lemma DefaultNotAdmin(c: Candidate, isEmail: string -> bool)
    requires Validate(c, isEmail).Success? && c.isAdmin.None?
    ensures !Validate(c, isEmail).value.isAdmin
  {
    StoredShape(c, isEmail);
  }

  /** Every record the schema stores satisfies `WellFormed`. */
  lemma AcceptedWellFormed(c: Candidate, isEmail: string -> bool)
    requires Validate(c, isEmail).Success?
    ensures WellFormed(Validate(c, isEmail).value, isEmail)
  {
    assert Acceptable(c, isEmail) by { AcceptsExactly(c, isEmail); }
    StoredShape(c, isEmail);
    StoredWellFormed(c, Validate(c, isEmail).value, isEmail);
  }

  /** The record stored for an acceptable candidate satisfies `WellFormed`. */
  lemma StoredWellFormed(c: Candidate, u: User, isEmail: string -> bool)
    requires Acceptable(c, isEmail) && StoredFrom(c, u)
    ensures WellFormed(u, isEmail)
  {
    // One conjunct of `WellFormed` at a time; the whole conjunction at once is too costly.
    assert 0 < JsLength(u.firstName) <= MaxNameLength && NoEdgeWhite(u.firstName);
    assert 0 < JsLength(u.lastName) <= MaxNameLength && NoEdgeWhite(u.lastName);
    assert u.email != [] && isEmail(u.email) && NoEdgeWhite(u.email) && NoUpper(u.email);
    assert JsLength(u.password) >= MinPasswordLength && PasswordIsSafe(u.password);
    assert NoEdgeWhite(u.password) && u.confirmPassword == u.password;
    assert u.gender in Genders && IsTenDigitPhone(u.phoneNumber);
    assert JsLength(u.paymentInformation.cardNumber) == CardNumberLength;
    assert MinCvvLength <= JsLength(u.paymentInformation.cvv) <= MaxCvvLength;
    assert forall i :: 0 <= i < |u.tokens| ==> u.tokens[i].token != [] by {
      forall i | 0 <= i < |u.tokens| ensures u.tokens[i].token != [] {
        assert Filled(c.tokens.value[i].token);
      }
    }
  }

  /** The candidate that submits every value of a stored record as it is. */
  function Resubmit(u: User): Candidate
  {
    Candidate(
      Some(u.firstName), Some(u.lastName), Some(u.email), Some(u.password), Some(u.confirmPassword),
      Some(u.dob), Some(u.gender), Some(u.phoneNumber), Some(u.address), u.profilePicture,
      PaymentInput(Some(u.paymentInformation.cardNumber), Some(u.paymentInformation.cardHolderName),
                   Some(u.paymentInformation.expirationDate), Some(u.paymentInformation.cvv)),
      SecurityInput(Some(u.securityQuestions.question1), Some(u.securityQuestions.answer1),
                    Some(u.securityQuestions.question2), Some(u.securityQuestions.answer2)),
      Some(u.termsAndConditions), Some(u.privacyPolicy), Some(u.interests),
      Some(u.userIdentification), u.additionalInfo, Some(u.isAdmin),
      Some(TokenInputs(u.tokens)))
  }

  /** The token entries that submit each stored token as it is. */
  function TokenInputs(tokens: seq<Token>): seq<TokenInput>
  {
    seq(|tokens|, i requires 0 <= i < |tokens| => TokenInput(Some(tokens[i].token)))
  }

  /** Reading the submitted entries back gives the stored tokens, one for one. */
  lemma TokenInputsRead(tokens: seq<Token>)
    ensures |TokenInputs(tokens)| == |tokens|
    ensures forall i :: 0 <= i < |tokens| ==> TokenInputs(tokens)[i].token == Some(tokens[i].token)
  {
  }

  /** A well-formed record, submitted again, meets every rule of the schema. */
  lemma ResubmitAcceptable(u: User, isEmail: string -> bool)
    requires WellFormed(u, isEmail)
    ensures Acceptable(Resubmit(u), isEmail)
  {
    ResubmitIdentity(u, isEmail);
    ResubmitDetails(u, isEmail);
  }

  lemma ResubmitIdentity(u: User, isEmail: string -> bool)
    requires WellFormed(u, isEmail)
    ensures var c := Resubmit(u);
      NameOk(c.firstName) && NameOk(c.lastName) && EmailOk(c.email, isEmail)
      && PasswordOk(c.password) && ConfirmOk(c.confirmPassword, c.password)
  {
    StoredNameOk(u.firstName);
    StoredNameOk(u.lastName);
    StoredEmailOk(u.email, isEmail);
    StoredPasswordOk(u.password);
  }

  lemma StoredNameOk(s: string)
    requires 0 < JsLength(s) <= MaxNameLength && NoEdgeWhite(s)
    ensures NameOk(Some(s))
  {
    var v := Some(s);
    TrimFixed(v.value);
  }

  lemma StoredEmailOk(s: string, isEmail: string -> bool)
    requires s != [] && isEmail(s) && NoEdgeWhite(s) && NoUpper(s)
    ensures EmailOk(Some(s), isEmail)
  {
    var v := Some(s);
    NormalizedEmailFixed(v.value);
  }

  lemma StoredPasswordOk(s: string)
    requires JsLength(s) >= MinPasswordLength && PasswordIsSafe(s) && NoEdgeWhite(s)
    ensures PasswordOk(Some(s)) && ConfirmOk(Some(s), Some(s))
  {
    var v := Some(s);
    TrimFixed(v.value);
  }

  lemma ResubmitDetails(u: User, isEmail: string -> bool)
    requires WellFormed(u, isEmail)
    ensures var c := Resubmit(u);
      && c.dob.Some? && GenderOk(c.gender) && PhoneOk(c.phoneNumber) && Filled(c.address)
      && CardNumberOk(c.paymentInformation.cardNumber) && Filled(c.paymentInformation.cardHolderName)
      && c.paymentInformation.expirationDate.Some? && CvvOk(c.paymentInformation.cvv)
      && Filled(c.securityQuestions.question1) && Filled(c.securityQuestions.answer1)
      && Filled(c.securityQuestions.question2) && Filled(c.securityQuestions.answer2)
      && c.termsAndConditions.Some? && c.privacyPolicy.Some? && Filled(c.userIdentification)
      && TokensOk(c.tokens)
  {
    var c := Resubmit(u);
    forall i | 0 <= i < |c.tokens.value| ensures Filled(c.tokens.value[i].token) {
      assert u.tokens[i].token != [];
    }
  }

  /** An e-mail without surrounding whitespace or upper-case letters is already normalised. */
  lemma NormalizedEmailFixed(s: string)
    requires NoEdgeWhite(s) && NoUpper(s)
    ensures NormalizeEmail(s) == s
  {
    TrimFixed(s);
    LowerFixed(s);
  }

  /** Validating a well-formed record again stores that same record: stored records are fixed points. */
  lemma ResubmitRoundTrip(u: User, isEmail: string -> bool)
    requires WellFormed(u, isEmail)
    ensures Validate(Resubmit(u), isEmail) == Success(u)
  {
    var c := Resubmit(u);
    assert Validate(c, isEmail).Success? by {
      ResubmitAcceptable(u, isEmail);
      AcceptsExactly(c, isEmail);
    }
    StoredShape(c, isEmail);
    ResubmitStoredFrom(u);
    StoredFromUnique(c, Validate(c, isEmail).value, u);
  }

  /** `StoredFrom` fixes the record: a candidate describes at most one stored record. */
  lemma StoredFromUnique(c: Candidate, u: User, v: User)
    requires StoredFrom(c, u) && StoredFrom(c, v)
    ensures u == v
  {
    if c.tokens.Some? {
      SameTokens(u.tokens, c.tokens.value, v.tokens);
    }
    assert u.paymentInformation == v.paymentInformation;
    assert u.securityQuestions == v.securityQuestions;
  }

  /**
   * A record whose names and password have no surrounding whitespace, and
   * whose e-mail is also lower-case, is the record its own re-submission
   * describes.
   */
  lemma ResubmitStoredFrom(u: User)
    requires NoEdgeWhite(u.firstName) && NoEdgeWhite(u.lastName) && NoEdgeWhite(u.password)
    requires NoEdgeWhite(u.email) && NoUpper(u.email)
    ensures StoredFrom(Resubmit(u), u)
  {
    var c := Resubmit(u);
    assert u.firstName == Trim(c.firstName.value) by { TrimFixed(u.firstName); }
    assert u.lastName == Trim(c.lastName.value) by { TrimFixed(u.lastName); }
    assert u.password == Trim(c.password.value) by { TrimFixed(u.password); }
    assert u.email == NormalizeEmail(c.email.value) by { NormalizedEmailFixed(u.email); }
    TokenInputsRead(u.tokens);
  }

  /** Two token lists read back from the same submitted entries are equal. */
  lemma SameTokens(tokens: seq<Token>, inputs: seq<TokenInput>, stored: seq<Token>)
    requires |inputs| == |tokens| == |stored|
    requires forall i :: 0 <= i < |tokens| ==> inputs[i].token == Some(tokens[i].token)
    requires forall i :: 0 <= i < |stored| ==> inputs[i].token == Some(stored[i].token)
    ensures stored == tokens
  {
    assert forall i :: 0 <= i < |tokens| ==> stored[i].token == tokens[i].token;
  }

  /** A record the schema has stored validates again to itself. */
  lemma RevalidateStored(c: Candidate, isEmail: string -> bool)
    requires Validate(c, isEmail).Success?
    ensures Validate(Resubmit(Validate(c, isEmail).value), isEmail) == Validate(c, isEmail)
  {
    AcceptedWellFormed(c, isEmail);
    ResubmitRoundTrip(Validate(c, isEmail).value, isEmail);
  }

  // ---------------------------------------------------------------------------
  // The setters.
  // ---------------------------------------------------------------------------

  /** Normalising an e-mail twice is normalising it once. */
  lemma NormalizeEmailIdempotent(s: string)
    ensures NormalizeEmail(NormalizeEmail(s)) == NormalizeEmail(s)
  {
    var r := NormalizeEmail(s);
    TrimFixed(r);
    LowerFixed(r);
  }

  /** Building a document from a built document changes nothing: setters and defaults are idempotent. */
  lemma NewDocumentIdempotent(c: Candidate)
    ensures NewDocument(NewDocument(c)) == NewDocument(c)
  {
    var d := NewDocument(c);
    var e := NewDocument(d);
    assert e.firstName == d.firstName && e.lastName == d.lastName && e.password == d.password by {
      if c.firstName.Some? {
        TrimIdempotent(c.firstName.value);
      }
      if c.lastName.Some? {
        TrimIdempotent(c.lastName.value);
      }
      if c.password.Some? {
        TrimIdempotent(c.password.value);
      }
    }
    assert e.email == d.email by {
      if c.email.Some? {
        NormalizeEmailIdempotent(c.email.value);
      }
    }
  }
}
