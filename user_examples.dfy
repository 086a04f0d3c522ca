/**
 * Worked examples: for concrete field values, what the schema reports,
 * whatever the rest of the submitted form holds.
 */
module UserExamples {
  import opened Wrappers
  import opened JsString
  import opened JsStringExamples
  import opened UserModel
  import opened UserModelProperties

  /** A ten-digit phone number raises no error on `phoneNumber`. */
  lemma TenDigitPhoneAccepted(c: Candidate, isEmail: string -> bool, x: Violation)
    requires c.phoneNumber == Some("0123456789")
    ensures !Reported(c, isEmail, FieldError(PhoneNumber, x))
  {
    TenDigitString(c.phoneNumber.value);
    PhoneRule(c, isEmail, x);
  }

  /** Five digits are too few for `phoneNumber`. */
  lemma ShortPhoneRejected(c: Candidate, isEmail: string -> bool)
    requires c.phoneNumber == Some("12345")
    ensures Reported(c, isEmail, FieldError(PhoneNumber, Invalid(PhoneNotTenDigits)))
  {
    PhoneRule(c, isEmail, Invalid(PhoneNotTenDigits));
  }

  /** Eleven digits are one too many. */
  lemma LongPhoneRejected(c: Candidate, isEmail: string -> bool)
    requires c.phoneNumber == Some("12345678901")
    ensures Reported(c, isEmail, FieldError(PhoneNumber, Invalid(PhoneNotTenDigits)))
  {
    PhoneRule(c, isEmail, Invalid(PhoneNotTenDigits));
  }

  /** Ten characters that are not all digits fail `phoneNumber` too. */
  lemma LetteredPhoneRejected(c: Candidate, isEmail: string -> bool)
    requires c.phoneNumber == Some("12345abcde")
    ensures Reported(c, isEmail, FieldError(PhoneNumber, Invalid(PhoneNotTenDigits)))
  {
    assert !IsDigit(c.phoneNumber.value[5]);
    PhoneRule(c, isEmail, Invalid(PhoneNotTenDigits));
  }

  /** `gender` is compared as written: "Male" is not "male". */
  lemma CapitalisedGenderRejected(c: Candidate, isEmail: string -> bool)
    requires c.gender == Some("Male")
    ensures Reported(c, isEmail, FieldError(Gender, NotInEnum))
  {
    assert c.gender.value[0] != "male"[0];
    assert c.gender.value != "female" && c.gender.value != "other";
    GenderRule(c, isEmail, NotInEnum);
  }

  /** A value outside the list, such as "unspecified", is rejected. */
  lemma UnlistedGenderRejected(c: Candidate, isEmail: string -> bool)
    requires c.gender == Some("unspecified")
    ensures Reported(c, isEmail, FieldError(Gender, NotInEnum))
  {
    assert |c.gender.value| == 11;
    GenderRule(c, isEmail, NotInEnum);
  }

  /** "other" is one of the three accepted genders. */
  lemma OtherGenderAccepted(c: Candidate, isEmail: string -> bool, x: Violation)
    requires c.gender == Some("other")
    ensures !Reported(c, isEmail, FieldError(Gender, x))
  {
    assert c.gender.value == Genders[2];
    GenderRule(c, isEmail, x);
  }

  /** A first name of only spaces is trimmed to "" and so is missing. */
  lemma BlankFirstNameMissing(c: Candidate, isEmail: string -> bool)
    requires c.firstName == Some("   ")
    ensures Reported(c, isEmail, FieldError(FirstName, Missing))
  {
    assert Trim(c.firstName.value) == [] by { BlankTrimmedAway(c.firstName.value); }
    NameRule(c, isEmail, FirstName, Missing);
  }

  /** Surrounding spaces do not count towards the limit of 50 code units. */
  lemma PaddedLongestNameAccepted(c: Candidate, isEmail: string -> bool, name: string, x: Violation)
    requires JsLength(name) == MaxNameLength && NoEdgeWhite(name)
    requires c.lastName == Some(" " + name + " ")
    ensures !Reported(c, isEmail, FieldError(LastName, x))
  {
    TrimOfPadded(" ", name, " ");
    NameRule(c, isEmail, LastName, x);
  }

  /** Nor do they hide a name one character too long. */
  lemma PaddedOverlongNameRejected(c: Candidate, isEmail: string -> bool, name: string)
    requires JsLength(name) == MaxNameLength + 1 && NoEdgeWhite(name)
    requires c.lastName == Some(" " + name + " ")
    ensures Reported(c, isEmail, FieldError(LastName, TooLong(MaxNameLength)))
  {
    TrimOfPadded(" ", name, " ");
    NameRule(c, isEmail, LastName, TooLong(MaxNameLength));
  }

  /**
   * Lengths are JavaScript lengths: 26 characters that each take two UTF-16
   * code units (those above U+FFFF) are 52 code units, too many for a name.
   */
  lemma AstralNameTooLong(c: Candidate, isEmail: string -> bool, name: string)
    requires |name| == 26 && JsLength(name) == 2 * |name| && NoEdgeWhite(name)
    requires c.lastName == Some(name)
    ensures Reported(c, isEmail, FieldError(LastName, TooLong(MaxNameLength)))
  {
    assert JsLength(Trim(name)) == 52 by { TrimFixed(name); }
    NameRule(c, isEmail, LastName, TooLong(MaxNameLength));
  }

  /** ... and three of them are 6 code units, long enough for a password. */
  lemma AstralPasswordLongEnough(c: Candidate, isEmail: string -> bool, pw: string)
    requires |pw| == 3 && JsLength(pw) == 2 * |pw| && NoEdgeWhite(pw)
    requires c.password == Some(pw)
    ensures !Reported(c, isEmail, FieldError(Password, TooShort(MinPasswordLength)))
    ensures !Reported(c, isEmail, FieldError(Password, Missing))
  {
    assert JsLength(Trim(pw)) == 6 by { TrimFixed(pw); }
    PasswordRule(c, isEmail, TooShort(MinPasswordLength));
    PasswordRule(c, isEmail, Missing);
  }

  /** Three U+1F600 characters make a password that is not too short. */
  lemma GrinningPasswordLongEnough(c: Candidate, isEmail: string -> bool)
    requires c.password == Some("\U{1F600}\U{1F600}\U{1F600}")
    ensures !Reported(c, isEmail, FieldError(Password, TooShort(MinPasswordLength)))
  {
    GrinningTriple(c.password.value);
    AstralPasswordLongEnough(c, isEmail, c.password.value);
  }

  /** The e-mail address is stored trimmed and in lower case. */
  lemma EmailStoredNormalized(c: Candidate)
    requires c.email == Some(" Bo@Ex.IO ")
    ensures NewDocument(c).email == Some("bo@ex.io")
  {
    assert NormalizeEmail(c.email.value) == "bo@ex.io" by {
      MixedCaseNormalized(c.email.value, "Bo@Ex.IO");
    }
  }

  /** Case does not hide the word: "MyPassword1" contains "password". */
  lemma PasswordWordRejected(c: Candidate, isEmail: string -> bool)
    requires c.password == Some("MyPassword1")
    ensures Reported(c, isEmail, FieldError(Password, Invalid(PasswordContainsPassword)))
  {
    var s := c.password.value;
    assert |Trim(s)| >= MinPasswordLength && Includes(Lower(Trim(s)), "password") by {
      CapitalisedPasswordWord(s);
      UnpaddedLength(s);
      UnpaddedIncludes(s, "password");
    }
    PasswordRule(c, isEmail, Invalid(PasswordContainsPassword));
  }

  /** "Secur3Key" is long enough and free of the word, so `password` accepts it. */
  lemma SafePasswordAccepted(c: Candidate, isEmail: string -> bool, x: Violation)
    requires c.password == Some("Secur3Key")
    ensures !Reported(c, isEmail, FieldError(Password, x))
  {
    var s := c.password.value;
    assert |Trim(s)| >= MinPasswordLength && !Includes(Lower(Trim(s)), "password") by {
      SafeKeyWithoutWord(s);
      UnpaddedLength(s);
      UnpaddedIncludes(s, "password");
    }
    PasswordRule(c, isEmail, x);
  }

  /** A non-empty password without edge whitespace, confirmed as given, raises no error on `confirmPassword`. */
  lemma UnpaddedConfirmationAccepted(c: Candidate, isEmail: string -> bool, x: Violation)
    requires c.password.Some? && c.password.value != [] && NoEdgeWhite(c.password.value)
    requires c.confirmPassword == c.password
    ensures !Reported(c, isEmail, FieldError(ConfirmPassword, x))
  {
    assert Trim(c.password.value) == c.confirmPassword.value by { TrimFixed(c.password.value); }
    ConfirmPasswordRule(c, isEmail, x);
  }

  /** A confirmation equal to the password raises no error on `confirmPassword`. */
  lemma MatchingConfirmationAccepted(c: Candidate, isEmail: string -> bool, x: Violation)
    requires c.password == Some("Secur3Key") && c.confirmPassword == Some("Secur3Key")
    ensures !Reported(c, isEmail, FieldError(ConfirmPassword, x))
  {
    SafeKeyWithoutWord(c.password.value);
    UnpaddedConfirmationAccepted(c, isEmail, x);
  }

  /** A different confirmation is reported as a mismatch. */
  lemma DifferentConfirmationRejected(c: Candidate, isEmail: string -> bool)
    requires c.password == Some("Secur3Key") && c.confirmPassword == Some("Other123")
    ensures Reported(c, isEmail, FieldError(ConfirmPassword, Invalid(PasswordsDoNotMatch)))
  {
    assert |Trim(c.password.value)| != |c.confirmPassword.value| by {
      UnpaddedLength(c.password.value);
    }
    ConfirmPasswordRule(c, isEmail, Invalid(PasswordsDoNotMatch));
  }

  /** Whitespace around a password does not count towards its length. */
  lemma PaddedPasswordTooShort(c: Candidate, isEmail: string -> bool, core: string)
    requires NoEdgeWhite(core) && 0 < JsLength(core) < MinPasswordLength
    requires c.password == Some("  " + core + "  ")
    ensures Reported(c, isEmail, FieldError(Password, TooShort(MinPasswordLength)))
  {
    TrimOfPadded("  ", core, "  ");
    PasswordRule(c, isEmail, TooShort(MinPasswordLength));
  }

  /** The length limit is checked after trimming: "  abc12  " is too short. */
  lemma TrimmedPasswordTooShort(c: Candidate, isEmail: string -> bool)
    requires c.password == Some("  abc12  ")
    ensures Reported(c, isEmail, FieldError(Password, TooShort(MinPasswordLength)))
  {
    PaddedShortTrimmed(c.password.value, "abc12");
    PaddedPasswordTooShort(c, isEmail, "abc12");
  }

  /**
   * `password` is trimmed before the comparison, so a padded password
   * matches its unpadded confirmation.
   */
  lemma PaddedPasswordConfirmed(c: Candidate, isEmail: string -> bool, x: Violation)
    requires c.password == Some("  Secr3tKey  ") && c.confirmPassword == Some("Secr3tKey")
    ensures !Reported(c, isEmail, FieldError(ConfirmPassword, x))
  {
    assert Trim(c.password.value) == c.confirmPassword.value by {
      PaddedKeyTrimmed(c.password.value, c.confirmPassword.value);
    }
    ConfirmPasswordRule(c, isEmail, x);
  }

  /**
   * `confirmPassword` itself is not trimmed, so a trailing space on it is
   * a mismatch.
   */
  lemma PaddedConfirmationRejected(c: Candidate, isEmail: string -> bool)
    requires c.password == Some("Secr3tKey") && c.confirmPassword == Some("Secr3tKey ")
    ensures Reported(c, isEmail, FieldError(ConfirmPassword, Invalid(PasswordsDoNotMatch)))
  {
    assert |Trim(c.password.value)| != |c.confirmPassword.value| by {
      UnpaddedLength(c.password.value);
    }
    ConfirmPasswordRule(c, isEmail, Invalid(PasswordsDoNotMatch));
  }

  /** A Boolean `required` is met by `false`: unticked terms raise no error. */
  lemma UntickedTermsAccepted(c: Candidate, isEmail: string -> bool, x: Violation)
    requires c.termsAndConditions == Some(false)
    ensures !Reported(c, isEmail, FieldError(TermsAndConditions, x))
  {
    RequiredValueRule(c, isEmail, TermsAndConditions, x);
  }
}
