# User schema validation, modelled in Dafny

This project models the `User` schema of `userModel.js`. The schema is a
Mongoose document schema with about twenty paths. Validation rules and
setters are attached to the paths:

- `required`, `minlength`, `maxlength` and `enum`;
- inline `validate` functions for the e-mail syntax, the "password" ban,
  the password confirmation and the ten-digit phone number;
- `trim` and `lowercase` setters;
- the `isAdmin` default and the `tokens` sub-document array.

A payload submitted for a new user is a `Candidate`. Every field of it may be
absent. `Validate(c, isEmail)` either stores the record as a `User`, with
every required field present and every setter applied, or fails with the list
of failing paths. Each failing path carries the reason it failed.

The schema leans on behaviour of the framework that the file does not spell
out. The model writes it out explicitly:

- setters (`trim`, `lowercase`) run when the value is assigned, before any
  validator;
- on each path, `required` runs first and the other validators follow in
  declaration order; the first failure is that path's only error;
- validators other than `required` skip an absent value;
- a required string must be non-empty, but a required boolean accepts
  `false`;
- when `undefined`, the `tokens` and `interests` arrays default to `[]`, and
  `isAdmin` defaults to `false`;
- errors are collected across all paths, one per failing path: validation
  does not stop at the first failing field;
- the `confirmPassword` validator compares its value with the document's
  `password`, which has already been trimmed by its setter; `confirmPassword`
  itself is not trimmed;
- `minlength` and `maxlength` compare the JavaScript `length` of the value
  after its setters have run, so the minimum length of `password` applies to
  the trimmed password;
- `length` counts UTF-16 code units (`JsLength`): a character above U+FFFF
  counts twice.

An absent value (`Option`'s `None`) stands for `undefined`.

`trim` removes the ECMAScript whitespace and line-terminator characters.
`toLowerCase` is modelled on ASCII letters. `validator.isEmail` is a
parameter `isEmail: string -> bool`.

Modules:

- `Wrappers`: `Option` and `Result`.
- `JsString`: `trim`, `toLowerCase`, `includes`, `length` and `/^\d{n}$/`,
  with their algebra. This covers trim and lowercase idempotence, that trim and
  lowercase commute, and the characterisation of `includes` by occurrence.
- `UserModel`: the datatypes, the validator lists of each path, the setters
  and defaults (`NewDocument`), per-path outcomes (`PathResult`), the error
  list and `Validate`.
- `UserModelProperties`: one lemma per rule. Each states exactly when
  validation reports a given error on a given path.
- `UserAcceptance`: an independent, field-by-field statement of what the
  schema accepts (`Acceptable`), and the proof that `Validate` succeeds
  exactly on it.
- `UserRecord`: what a stored record looks like. It holds its invariant
  (`WellFormed`), and re-submitting a stored record yields the same record.
- `JsStringExamples` and `UserExamples`: concrete inputs from the schema's
  domain and the errors they produce.

## Model

The validator lists of the paths are definitions without a contract of their
own: constants of `UserModel`, and for `email` and `confirmPassword`
functions of the e-mail test and of the document's password. What each list
reports is stated by the lemma named here:

- `NameRules` (userModel.js:6-17): `NameOutcome`;
- `EmailRules` (userModel.js:18-29): `EmailOutcome`;
- `PasswordRules` (userModel.js:30-40): `PasswordOutcome`;
- `ConfirmPasswordRules` (userModel.js:41-49): `ConfirmPasswordOutcome`;
- `GenderRules` (userModel.js:55-59): `GenderOutcome`;
- `PhoneRules` (userModel.js:60-69): `PhoneOutcome`;
- `CardNumberRules` (userModel.js:79-84): `CardNumberOutcome`;
- `CvvRules` (userModel.js:93-98): `CvvOutcome`;
- `RequiredOnly` (userModel.js:70-73, 85-88, 100-117, 134-138, 152-155):
  `RequiredOnlyOutcome`.

| member | source | states |
|---|---|---|
| JsString.TrimStart | userModel.js:9 | the result is a suffix of the input; everything dropped is whitespace; the result does not start with whitespace |
| JsString.TrimEnd | userModel.js:9 | the result is a prefix of the input; everything dropped is whitespace; the result does not end with whitespace |
| JsString.IsWhite | userModel.js:9 | the characters `trim` removes: ECMAScript WhiteSpace (TAB, VT, FF, SP, NBSP, ZWNBSP and the Zs separators) and LineTerminator (LF, CR, LS, PS) (no contract of its own; `TrimSplits` and `TrimOfPadded` state what `Trim` removes) |
| JsString.Trim | userModel.js:9 | a trimmed value has no whitespace at either end and is never longer than the input |
| JsString.TrimSplits | userModel.js:9 | every string is white padding, then its trimmed value, then white padding |
| JsString.TrimOfPadded | userModel.js:15 | trimming a value surrounded by any whitespace gives back exactly that value |
| JsString.TrimFixed | userModel.js:22 | a value without edge whitespace is left unchanged by `trim` |
| JsString.TrimIdempotent | userModel.js:34 | trimming twice is trimming once |
| JsString.LowerChar | userModel.js:23 | an upper-case ASCII letter maps to its lower-case letter, every other character to itself |
| JsString.Lower | userModel.js:23 | lowercasing keeps the length, maps each character through `LowerChar` and leaves no upper-case letter |
| JsString.LowerFixed | userModel.js:23 | a value without upper-case letters is unchanged by lowercasing |
| JsString.LowerIdempotent | userModel.js:23 | lowercasing twice is lowercasing once |
| JsString.LowerAppend | userModel.js:23 | lowercasing distributes over concatenation |
| JsString.LowerKeepsWhite | userModel.js:22-23 | lowercasing leaves whitespace alone and keeps "no edge whitespace" |
| JsString.TrimLowerCommute | userModel.js:22-23 | trimming then lowercasing equals lowercasing then trimming |
| JsString.IncludesIff | userModel.js:36 | `includes` holds exactly when the pattern occurs at some index |
| JsString.OccursAfterFirst | userModel.js:36 | an occurrence past the first character is an occurrence in the tail, and back |
| JsString.Includes | userModel.js:36 | `s.includes(pat)`: compares `pat` with each slice of `s` from the left (no contract of its own; `IncludesIff` states its meaning) |
| JsString.JsLength | userModel.js:10 | the JavaScript `length` lies between the character count and twice the character count |
| JsString.JsLengthBmp | userModel.js:33 | the JavaScript `length` equals the character count exactly when no character lies above U+FFFF |
| JsString.JsLengthAstral | userModel.js:16 | the JavaScript `length` is twice the character count exactly when every character lies above U+FFFF |
| JsString.IsAstral | userModel.js:10 | a character above U+FFFF, which JavaScript stores as a surrogate pair and `length` counts as two code units (no contract of its own; `JsLengthBmp` and `JsLengthAstral` state its effect on `JsLength`) |
| JsString.JsLengthAppend | userModel.js:10 | the JavaScript length of a concatenation is the sum of the two lengths, so with the one-character cases it fixes `length` of any string |
| JsString.MatchesDigits | userModel.js:65 | `/^\d{n}$/` matches exactly the strings of length `n` made only of the digits 0-9 |
| JsString.IsDigit | userModel.js:65 | `\d` in a regular expression without the `u` flag: the ASCII digits 0-9 only (no contract of its own; `MatchesDigits` states what `/^\d{n}$/` accepts) |
| JsString.TrimStartOfPadded | userModel.js:9 | leading whitespace before a value that does not start with whitespace is exactly what `trimStart` removes |
| JsString.TrimEndOfPadded | userModel.js:9 | trailing whitespace after a value that does not end with whitespace is exactly what `trimEnd` removes |
| UserModel.Passes | userModel.js:8-10 | what one validator accepts: `required` a present non-empty string, `minlength`/`maxlength` a JavaScript length within the bound, `enum` a listed value, a custom validator a value its test accepts; all but `required` accept an absent value (no contract of its own; the `*Outcome` and `*Rule` lemmas state its effect) |
| UserModel.FirstViolation | userModel.js:4-163 | framework behaviour: runs a path's validators in order and stops at the first that fails (no contract of its own; `FirstViolationSpec` states its meaning) |
| UserModel.FirstViolationSpec | userModel.js:4-163 | framework behaviour: a path passes exactly when all of its validators pass; otherwise its error is that of the first validator that fails, all earlier ones having passed |
| UserModel.RunOne | userModel.js:4-163 | framework behaviour: a path with one validator fails exactly when that validator fails |
| UserModel.RunTwo | userModel.js:4-163 | framework behaviour: with two validators, the second is consulted only after the first passes |
| UserModel.RunThree | userModel.js:4-163 | framework behaviour: with three validators, each is consulted only after all earlier ones pass |
| UserModel.RequireValue | userModel.js:51-127 | the `required` check of the `Date` and `Boolean` paths `dob` (51-54), `expirationDate` (89-92), `termsAndConditions` and `privacyPolicy` (119-127) (no contract of its own; `RequiredValueRule` states that such a path is reported missing exactly when absent, `false` counting as present) |
| UserModel.NormalizeEmail | userModel.js:22-23 | the stored e-mail has no upper-case letters and no edge whitespace, and is no longer than the input |
| UserModel.PasswordIsSafe | userModel.js:35-38 | the content check of `password`: its lower-cased form does not include "password" (no contract of its own; `PasswordRule` states its effect) |
| UserModel.IsTenDigitPhone | userModel.js:63-67 | the check of `phoneNumber` is `/^\d{10}$/`, which `MatchesDigits` characterises as exactly ten ASCII digits |
| UserModel.NewDocument | userModel.js:145-148 | building the document supplies `isAdmin` (false unless `true` was given) and both arrays; the first name is present exactly when given and has no edge whitespace; the e-mail has no upper-case letter and no edge whitespace |
| UserModel.NewDocumentShape | userModel.js:4-163 | path by path: names and password present exactly when given, without edge whitespace and never longer; the e-mail present exactly when given, lower-case and without edge whitespace; `isAdmin` false unless `true` was given; `interests` and `tokens` kept when given, else `[]`; every other path unchanged |
| UserModel.PathResult | userModel.js:4-157 | gives each path its validators in schema order (`required` first) and runs them on the document's value; a token index past the array has no error (no contract of its own; the `*Outcome` lemmas state what each path reports) |
| UserModel.TokenPaths | userModel.js:150-157 | the `tokens.i.token` paths of the token array (no contract of its own; `SchemaPathsIff` states that exactly one such path is checked per submitted token) |
| UserModel.SchemaPaths | userModel.js:4-163 | the paths validated on a document: each top-level schema path once (`FieldPaths`, in schema order), then one `tokens.i.token` path per submitted token (no contract of its own; `SchemaPathsIff` states exactly which paths it holds) |
| UserModel.Errors | userModel.js:4-163 | the error list of a document: one entry per failing path of `SchemaPaths`, in that order (no contract of its own; `ErrorsAt` and `NoErrorsIff` state its meaning) |
| UserModel.Store | userModel.js:4-163 | the record stored from a complete document: each required path's value, the optional ones as they are (no contract of its own; `UserRecord.StoredShape` states the record) |
| UserModel.ErrorsAt | userModel.js:4-163 | an error is listed exactly when its path is among those checked and fails with that violation; at most one error per path |
| UserModel.FieldPathListed | userModel.js:4-163 | every non-array path of the schema is among the field paths checked |
| UserModel.SchemaPathsIff | userModel.js:4-163 | the paths checked are exactly the schema's fields plus one path per submitted token |
| UserModel.NoErrorAt | userModel.js:4-163 | an empty error list means every checked path passes |
| UserModel.NoErrorsIff | userModel.js:4-163 | the error list is empty exactly when every path on the schema passes |
| UserModel.RequiredFirst | userModel.js:8 | a path whose first validator is `required` passes only with a present, non-empty value |
| UserModel.PassingPresent | userModel.js:4-163 | a path that passes has its value present |
| UserModel.PassingPersonal | userModel.js:6-48 | when the name, e-mail and password paths pass, all five values are present |
| UserModel.PassingContact | userModel.js:51-84 | when the birth date, gender, phone, address and card number pass, they are present |
| UserModel.PassingPayment | userModel.js:85-108 | when the holder, expiry, cvv and first question/answer pass, they are present |
| UserModel.PassingConsent | userModel.js:109-138 | when the second question/answer, both consents and the identification pass, they are present |
| UserModel.PassingComplete | userModel.js:4-163 | when every path passes, every required field is present, so the document can be stored |
| UserModel.Validate | userModel.js:4-163 | validation succeeds exactly when every path on the schema passes; on failure the errors are exactly the failing paths with their violations |
| UserModelProperties.Reported | userModel.js:4-163 | what a caller observes: validation fails and its error list holds this path and violation; every `*Rule` lemma is stated on it (no contract of its own; `ReportedIff` states when it holds) |
| UserModelProperties.ReportedIff | userModel.js:4-163 | an error is reported exactly when its path is on the schema and fails with that violation |
| UserModelProperties.OneViolationPerPath | userModel.js:4-163 | no path is reported with two different violations |
| UserModelProperties.NameOutcome | userModel.js:6-17 | for `firstName` (6-11) and `lastName` (12-17), a name is missing when absent or empty, too long above a JavaScript length of 50, and passes otherwise |
| UserModelProperties.RequiredOnlyOutcome | userModel.js:70-155 | a path with only `required` (`address` 70-73, `cardHolderName` 85-88, the security questions and answers 100-117, `userIdentification` 134-138, each `tokens.i.token` 152-155) fails exactly on an absent or empty value |
| UserModelProperties.EmailOutcome | userModel.js:18-29 | the e-mail is missing when absent or empty; otherwise it is rejected with "Invalid email address" exactly when the syntax test fails |
| UserModelProperties.PasswordOutcome | userModel.js:30-40 | the password is missing, too short below a JavaScript length of 6, rejected when it contains "password", else passes, in that order |
| UserModelProperties.ConfirmPasswordOutcome | userModel.js:41-49 | the confirmation is missing when absent or empty; otherwise it is rejected with "Passwords do not match" unless it equals the password |
| UserModelProperties.GenderOutcome | userModel.js:55-59 | gender is missing when absent or empty, else rejected exactly when not one of the three values |
| UserModelProperties.PhoneOutcome | userModel.js:60-69 | the phone is missing when absent or empty, else rejected with its message exactly when not ten digits |
| UserModelProperties.CardNumberOutcome | userModel.js:79-84 | the card number is missing, too short below a JavaScript length of 16, too long above 16, else passes |
| UserModelProperties.CvvOutcome | userModel.js:93-98 | the cvv is missing, too short below a JavaScript length of 3, too long above 4, else passes |
| UserModelProperties.ReportedAt | userModel.js:4-163 | a path's reported error is exactly its outcome |
| UserModelProperties.NameRule | userModel.js:6-17 | a name is reported missing exactly when absent or blank after trimming, and too long exactly when the JavaScript length of the trimmed name exceeds 50 |
| UserModelProperties.EmailRule | userModel.js:18-29 | the e-mail is reported missing exactly when it normalises to empty, and invalid exactly when its normalised form fails the syntax test |
| UserModelProperties.PasswordRule | userModel.js:30-40 | the password is reported missing, too short (JavaScript length of the trimmed value 1-5), or as containing "password" in any letter case (that length at least 6), each exactly when that holds |
| UserModelProperties.PasswordVerdict | userModel.js:30-40 | for a trimmed password `t`, the first failing password check is `Missing`, `TooShort(6)` or the "password"-word error exactly when, respectively, the value is absent or empty, its JavaScript length is 1-5, or it is at least 6 long and its lower-cased form includes "password" |
| UserModelProperties.PasswordRawOutcome | userModel.js:33-34 | the password's checks see the trimmed value |
| UserModelProperties.ConfirmPasswordRule | userModel.js:41-48 | the confirmation is reported as a mismatch exactly when it is non-empty and differs from the trimmed password or no password was given; the confirmation itself is not trimmed |
| UserModelProperties.GenderRule | userModel.js:55-59 | gender is reported out of the list exactly when present, non-empty and not "male", "female" or "other" as written |
| UserModelProperties.PhoneRule | userModel.js:60-69 | the phone is reported with "Phone number should be a 10-digit number" exactly when present, non-empty and not ten digits |
| UserModelProperties.CardNumberRule | userModel.js:79-84 | the card number is reported too short or too long exactly when its JavaScript length is below or above 16 |
| UserModelProperties.CvvRule | userModel.js:93-98 | the cvv is reported too short below a JavaScript length of 3 and too long above 4, exactly |
| UserModelProperties.RequiredTextRule | userModel.js:70-138 | `address` (70-73), `cardHolderName` (85-88), the four security question and answer paths (100-117) and `userIdentification` (134-138) are reported, as missing only, exactly when absent or empty |
| UserModelProperties.RequiredValueRule | userModel.js:51-127 | `dob` (51-54), `expirationDate` (89-92), `termsAndConditions` and `privacyPolicy` (119-127) are reported, as missing only, exactly when absent; `false` counts as present |
| UserModelProperties.TokenRule | userModel.js:150-157 | token `i` is reported missing exactly when it exists and its value is absent or empty |
| UserAcceptance.PathPassIff | userModel.js:4-163 | each path passes exactly when its field-by-field acceptance condition holds |
| UserAcceptance.NamePassIff | userModel.js:6-17 | a name path passes exactly when the trimmed name has a JavaScript length of 1 to 50 |
| UserAcceptance.EmailPassIff | userModel.js:18-29 | the e-mail passes exactly when its normalised form is non-empty and passes the syntax test |
| UserAcceptance.PasswordPassIff | userModel.js:30-40 | the password passes exactly when, trimmed, it has a JavaScript length of at least 6 and no "password" in any case |
| UserAcceptance.ConfirmPassIff | userModel.js:41-48 | the confirmation passes exactly when it is non-empty and equals the trimmed password |
| UserAcceptance.RequiredPassIff | userModel.js:51-138 | the paths with only `required` (`dob`, `address`, the card holder and expiry, the security questions and answers, both consents, `userIdentification`) pass exactly when their value is present, and non-empty for text |
| UserAcceptance.Acceptable | userModel.js:4-163 | the field-by-field statement of what the schema accepts, on the submitted values: trimmed names of JavaScript length 1-50, a normalised e-mail passing the syntax test, a trimmed password of length at least 6 without "password", a matching confirmation, a listed gender, a ten-digit phone, card and cvv lengths, every other required value present (no contract of its own; `AcceptsExactly` ties it to `Validate`) |
| UserAcceptance.AcceptablePathOk | userModel.js:4-163 | an acceptable candidate meets every path's condition |
| UserAcceptance.AcceptedIdentity | userModel.js:6-48 | a candidate that passes every path has acceptable names, e-mail, password and confirmation |
| UserAcceptance.AcceptedProfile | userModel.js:51-138 | a candidate that passes every path has a birth date (51-54), a listed gender (55-59), a ten-digit phone (60-69), an address (70-73) and a non-empty `userIdentification` (134-138) |
| UserAcceptance.AcceptedPayment | userModel.js:78-99 | a candidate that passes every path has a card number of JavaScript length 16, a holder, an expiry and a cvv of JavaScript length 3-4 |
| UserAcceptance.AcceptedConsent | userModel.js:100-127 | a candidate that passes every path has both security question/answer pairs and both consents |
| UserAcceptance.AcceptedTokens | userModel.js:150-157 | a candidate that passes every path has a non-empty value for every submitted token |
| UserAcceptance.AcceptsExactly | userModel.js:4-163 | validation succeeds exactly on the candidates that are acceptable field by field |
| UserRecord.WellFormed | userModel.js:4-163 | the record invariant: names of JavaScript length 1-50 without edge whitespace, a non-empty, trimmed, lower-case e-mail passing the syntax test, a trimmed safe password of length at least 6 equal to the confirmation, a listed gender, a ten-digit phone, a card of length 16, a cvv of length 3-4, non-empty required text and tokens (no contract of its own; `AcceptedWellFormed` and `ResubmitRoundTrip` state its role) |
| UserRecord.StoredFrom | userModel.js:4-163 | how a stored record derives from the submitted candidate, field by field (no contract of its own; `StoredShape` states that `Validate` stores it) |
| UserRecord.StoredShape | userModel.js:4-163 | a stored record holds the trimmed names and password, the normalised e-mail, every other submitted value unchanged, the defaults for absent arrays and `isAdmin`, and the submitted tokens in order |
| UserRecord.DefaultNotAdmin | userModel.js:145-148 | a user stored without `isAdmin` is not an administrator |
| UserRecord.StoredWellFormed | userModel.js:4-163 | the record derived from an acceptable candidate satisfies the record invariant |
| UserRecord.AcceptedWellFormed | userModel.js:4-163 | every stored record satisfies the record invariant: bounded, trimmed, lower-case where set, password safe and confirmed, ten-digit phone, card and cvv lengths, non-empty required text |
| UserRecord.Resubmit | userModel.js:4-163 | the candidate that submits a stored record's values as they are (no contract of its own; `ResubmitStoredFrom` and `ResubmitRoundTrip` state that it describes, and validates back to, that same record) |
| UserRecord.ResubmitStoredFrom | userModel.js:4-163 | a record whose names and password have no edge whitespace, and whose e-mail is also lower-case, is exactly the record its own re-submission derives to |
| UserRecord.StoredFromUnique | userModel.js:4-163 | the stored record is determined by the submitted candidate: two records derived from one candidate are equal |
| UserRecord.StoredNameOk | userModel.js:6-17 | a stored name is acceptable again |
| UserRecord.StoredEmailOk | userModel.js:18-29 | a stored e-mail is acceptable again |
| UserRecord.StoredPasswordOk | userModel.js:30-48 | a stored password is acceptable again and confirms itself |
| UserRecord.ResubmitIdentity | userModel.js:6-48 | a well-formed record's names, e-mail and password are acceptable on re-submission |
| UserRecord.ResubmitDetails | userModel.js:51-157 | a well-formed record's other fields, its tokens included, are acceptable on re-submission |
| UserRecord.ResubmitAcceptable | userModel.js:4-163 | a well-formed record re-submitted is acceptable |
| UserRecord.NormalizedEmailFixed | userModel.js:22-23 | an e-mail already trimmed and lower-case is stored unchanged |
| UserRecord.SameTokens | userModel.js:150-157 | two token lists read from the same submitted entries are equal |
| UserRecord.ResubmitRoundTrip | userModel.js:4-163 | a well-formed record, re-submitted, validates to exactly itself |
| UserRecord.RevalidateStored | userModel.js:4-163 | a stored record, re-submitted, validates to the same stored record |
| UserRecord.NormalizeEmailIdempotent | userModel.js:22-23 | normalising the e-mail twice is normalising it once |
| UserRecord.NewDocumentIdempotent | userModel.js:4-163 | applying the setters and defaults twice is applying them once |
| JsStringExamples.UnpaddedLength | userModel.js:9 | trimming a value with no edge whitespace keeps its length |
| JsStringExamples.UnpaddedIncludes | userModel.js:34-36 | trimming such a value does not change which words its lower-case form contains |
| JsStringExamples.BlankTrimmedAway | userModel.js:9 | `"   "` trims to the empty string |
| JsStringExamples.PaddedShortTrimmed | userModel.js:33-34 | `"  abc12  "` is `"abc12"`, of JavaScript length 5, padded with two spaces on each side |
| JsStringExamples.TenDigitString | userModel.js:65 | `"0123456789"` matches `/^\d{10}$/` |
| JsStringExamples.GrinningTriple | userModel.js:33 | three U+1F600 characters have JavaScript length 6, two code units each, and no edge whitespace |
| JsStringExamples.PaddedKeyTrimmed | userModel.js:34 | `"  Secr3tKey  "` trims to `"Secr3tKey"` |
| JsStringExamples.PaddedEmailTrimmed | userModel.js:22 | `" Bo@Ex.IO "` trims to `"Bo@Ex.IO"` |
| JsStringExamples.LowerMixedCase | userModel.js:23 | `"Bo@Ex.IO"` lower-cases to `"bo@ex.io"` |
| JsStringExamples.MixedCaseNormalized | userModel.js:22-23 | `" Bo@Ex.IO "` normalises to `"bo@ex.io"` |
| JsStringExamples.CapitalisedPasswordWord | userModel.js:36 | `"MyPassword1"` lower-cased contains `"password"` |
| JsStringExamples.SafeKeyWithoutWord | userModel.js:36 | `"Secur3Key"` lower-cased does not contain `"password"` |
| UserExamples.TenDigitPhoneAccepted | userModel.js:65 | `"0123456789"` raises no phone error |
| UserExamples.ShortPhoneRejected | userModel.js:65-67 | `"12345"` is reported with the phone message |
| UserExamples.LongPhoneRejected | userModel.js:65-67 | `"12345678901"` is reported with the phone message |
| UserExamples.LetteredPhoneRejected | userModel.js:65-67 | `"12345abcde"` is reported with the phone message |
| UserExamples.CapitalisedGenderRejected | userModel.js:58 | `"Male"` is reported as outside the list |
| UserExamples.UnlistedGenderRejected | userModel.js:58 | `"unspecified"` is reported as outside the list |
| UserExamples.OtherGenderAccepted | userModel.js:58 | `"other"` raises no gender error |
| UserExamples.BlankFirstNameMissing | userModel.js:8-9 | a first name of spaces is reported missing |
| UserExamples.PaddedLongestNameAccepted | userModel.js:15-16 | a padded last name of JavaScript length 50 raises no error |
| UserExamples.PaddedOverlongNameRejected | userModel.js:15-16 | a padded last name of JavaScript length 51 is reported too long |
| UserExamples.AstralNameTooLong | userModel.js:15-16 | a last name of 26 characters above U+FFFF (JavaScript length 52) is reported too long |
| UserExamples.AstralPasswordLongEnough | userModel.js:32-34 | a password of three characters above U+FFFF (JavaScript length 6) is neither missing nor too short |
| UserExamples.GrinningPasswordLongEnough | userModel.js:33 | `"\u{1F600}\u{1F600}\u{1F600}"` is not too short for `password` |
| UserExamples.EmailStoredNormalized | userModel.js:22-23 | `" Bo@Ex.IO "` is stored as `"bo@ex.io"` |
| UserExamples.PasswordWordRejected | userModel.js:35-38 | `"MyPassword1"` is reported as containing "password" |
| UserExamples.SafePasswordAccepted | userModel.js:30-40 | `"Secur3Key"` raises no password error |
| UserExamples.UnpaddedConfirmationAccepted | userModel.js:41-48 | a non-empty password without edge whitespace, confirmed with itself, raises no error on `confirmPassword` |
| UserExamples.MatchingConfirmationAccepted | userModel.js:44-47 | confirming `"Secur3Key"` with itself raises no error |
| UserExamples.DifferentConfirmationRejected | userModel.js:44-47 | confirming `"Secur3Key"` with `"Other123"` is reported as a mismatch |
| UserExamples.PaddedPasswordTooShort | userModel.js:33-34 | a password of JavaScript length 1-5 padded with two spaces on each side is reported too short |
| UserExamples.TrimmedPasswordTooShort | userModel.js:33-34 | `"  abc12  "` is reported too short, being measured after trimming |
| UserExamples.PaddedPasswordConfirmed | userModel.js:41-48 | a padded password matches its unpadded confirmation |
| UserExamples.PaddedConfirmationRejected | userModel.js:41-48 | a confirmation with a trailing space is reported as a mismatch |
| UserExamples.UntickedTermsAccepted | userModel.js:119-122 | `termsAndConditions: false` meets `required` |

## Left out

- `validator.isEmail` (userModel.js:25) belongs to a third-party library and is not part of this model. It is the parameter `isEmail`. It may be any function of the normalised address.
- Uniqueness of `email` and `userIdentification` (userModel.js:21, 137) is enforced by a database index at insertion time. It is not a schema check.
- `timestamps: true` (userModel.js:160-162) and the `mongoose.model` registration (userModel.js:165) are persistence behaviour. `createdAt` and `updatedAt` are therefore absent from `User`.
- Casting: every `Candidate` field already has its declared type. The framework's cast step and its cast errors (a number where a string is expected, say) are not modelled.
- `Date` values are opaque (`Date(epochMillis)`). The schema only requires them to be present.
- `toLowerCase` maps only the ASCII letters A-Z. Lowercasing of other Unicode letters is not modelled.
- The framework's default message templates for `required`, `minlength`, `maxlength` and `enum` are represented by the violation kind and its bound (`Missing`, `TooShort(6)`, ...). The messages of the schema's own validators are kept verbatim.
- Validators that throw are modelled as tests that fail with the thrown message. The sub-document `_id` that the framework adds to each token is not modelled.
- Validate: the failure list is stated by membership. The order in which the framework's error object lists the paths is not stated.
- Unpaired surrogates: a Dafny `string` holds only Unicode scalar values, so a JavaScript string holding a lone UTF-16 surrogate (which `length` counts as one code unit) cannot be represented.
- `null`: `None` stands for `undefined`. On a required path `null` fails `required` just as `undefined` does. The framework applies a default only to `undefined`, so a `null` submitted for `isAdmin`, `interests` or `tokens` is stored as `null`; that case is not modelled.
- `profilePicture`, `interests` and `additionalInfo` are optional and carried into the record unchanged. The elements of `interests` are not cast.
