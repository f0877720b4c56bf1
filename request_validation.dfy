/** Bean-validation constraints of SignupRequest and EmailFindRequest: every
    field @NotBlank, and the phone number matching ^\+?[0-9]{10,15}$. A null
    field is None. A violation is reported as MethodArgumentNotValidException. */
module RequestValidation {
  import opened Wrappers
  import opened Decimal
  import opened ExceptionHandling

  /** `String.trim()`: drops every character at or below U+0020 from both ends. */
  function TrimStart(s: string): string
  {
    if |s| > 0 && s[0] <= ' ' then TrimStart(s[1..]) else s
  }

  function TrimEnd(s: string): string
  {
    if |s| > 0 && s[|s| - 1] <= ' ' then TrimEnd(s[..|s| - 1]) else s
  }

  function Trim(s: string): string
  {
    TrimEnd(TrimStart(s))
  }

  /** @NotBlank: not null, and non-empty once trimmed. */
  predicate NotBlank(s: Option<string>)
  {
    s.Some? && |Trim(s.value)| > 0
  }

  /** A string is blank exactly when it holds nothing above U+0020. */
  lemma {:induction false} TrimEmptyIffNoVisible(s: string)
    ensures |Trim(s)| == 0 <==> forall i :: 0 <= i < |s| ==> s[i] <= ' '
  {
    TrimStartEmpty(s);
    TrimEndEmpty(TrimStart(s));
  }

  lemma {:induction false} TrimStartEmpty(s: string)
    ensures |TrimStart(s)| == 0 <==> forall i :: 0 <= i < |s| ==> s[i] <= ' '
    ensures |TrimStart(s)| > 0 ==> TrimStart(s)[0] > ' '
  {
    if |s| > 0 && s[0] <= ' ' {
      TrimStartEmpty(s[1..]);
      assert forall i :: 1 <= i < |s| ==> s[i] == s[1..][i - 1];
    }
  }

  lemma {:induction false} TrimEndEmpty(s: string)
    requires |s| > 0 ==> s[0] > ' '
    ensures |TrimEnd(s)| == 0 <==> |s| == 0
  {
    if |s| > 0 && s[|s| - 1] <= ' ' {
      assert |s| > 1;
      TrimEndEmpty(s[..|s| - 1]);
    }
  }

  // The language of ^\+?[0-9]{10,15}$, stated as the regular expression reads:
  // the string splits into an optional '+' followed by a run of 10 to 15 ASCII
  // digits, with nothing before or after.

  predicate OptionalPlus(p: string)
  {
    p == "" || p == "+"
  }

  predicate DigitRun(d: string)
  {
    10 <= |d| <= 15 && AllDigits(d)
  }

  ghost predicate InPhoneLanguage(s: string)
  {
    exists k :: 0 <= k <= |s| && OptionalPlus(s[..k]) && DigitRun(s[k..])
  }

  /** What a matcher computes for the pattern: skip one leading '+', then the
      rest must be 10 to 15 digits. */
  predicate MatchesPhonePattern(s: string)
  {
    var body := if |s| > 0 && s[0] == '+' then s[1..] else s;
    DigitRun(body)
  }

  /** The matcher accepts exactly the pattern's language. */
  lemma PhonePatternIsRegexLanguage(s: string)
    ensures MatchesPhonePattern(s) <==> InPhoneLanguage(s)
  {
    if MatchesPhonePattern(s) {
      var k := if |s| > 0 && s[0] == '+' then 1 else 0;
      assert OptionalPlus(s[..k]) && DigitRun(s[k..]);
    }
    if InPhoneLanguage(s) {
      var k :| 0 <= k <= |s| && OptionalPlus(s[..k]) && DigitRun(s[k..]);
      if k == 1 {
        assert s[0] == s[..k][0];
      } else {
        assert s[k..] == s;
        assert s[0] != '+';
      }
    }
  }

  /** @Pattern: null passes (only @NotBlank rejects it). */
  predicate PatternValid(s: Option<string>)
  {
    s.None? || MatchesPhonePattern(s.value)
  }

  datatype SignupRequest = SignupRequest(
    email: Option<string>, password: Option<string>, name: Option<string>, phoneNumber: Option<string>)

  datatype EmailFindRequest = EmailFindRequest(phoneNumber: Option<string>)

  /** The constraints of SignupRequest (the @Email format is not modelled). */
  predicate ValidSignupRequest(r: SignupRequest)
  {
    NotBlank(r.email) && NotBlank(r.password) && NotBlank(r.name)
    && NotBlank(r.phoneNumber) && PatternValid(r.phoneNumber)
  }

  /** The constraints of EmailFindRequest. */
  predicate ValidEmailFindRequest(r: EmailFindRequest)
  {
    NotBlank(r.phoneNumber) && PatternValid(r.phoneNumber)
  }

  /** A `@Valid` request body: the request, or MethodArgumentNotValidException. */
  function ValidateSignup(r: SignupRequest): (res: Result<SignupRequest, Exception>)
    ensures res.Success? <==> ValidSignupRequest(r)
    ensures res.Success? ==> res.value == r
    ensures res.Failure? ==> ErrorCodeOf(res.error) == ErrorCodes.METHOD_ARG_NOT_VALID
  {
    if ValidSignupRequest(r) then Success(r) else Failure(MethodArgumentNotValidException)
  }

  function ValidateEmailFind(r: EmailFindRequest): (res: Result<EmailFindRequest, Exception>)
    ensures res.Success? <==> ValidEmailFindRequest(r)
    ensures res.Failure? ==> ErrorCodeOf(res.error) == ErrorCodes.METHOD_ARG_NOT_VALID
  {
    if ValidEmailFindRequest(r) then Success(r) else Failure(MethodArgumentNotValidException)
  }

  /** A valid phone has 10 to 15 digits, so it is never blank. */
  lemma PhonePatternNotBlank(s: string)
    requires MatchesPhonePattern(s)
    ensures NotBlank(Some(s))
  {
    var k := if s[0] == '+' then 1 else 0;
    assert s[k..][0] == s[k] && IsDigit(s[k]);
    TrimEmptyIffNoVisible(s);
  }

  /** A request's phone is valid iff it is an optional '+' and 10 to 15 digits. */
  lemma EmailFindPhoneRule(phone: string)
    ensures ValidEmailFindRequest(EmailFindRequest(Some(phone))) <==> InPhoneLanguage(phone)
  {
    PhonePatternIsRegexLanguage(phone);
    if MatchesPhonePattern(phone) {
      PhonePatternNotBlank(phone);
    }
  }

  /** Both requests apply the same predicate to the phone, so any phone accepted
      at signup is accepted for email recovery. */
  lemma SignupPhoneAcceptedForEmailFind(r: SignupRequest)
    requires ValidSignupRequest(r)
    ensures ValidEmailFindRequest(EmailFindRequest(r.phoneNumber))
  {
  }

  /** For a string of digits only the length decides. */
  lemma DigitStringLength(s: string)
    requires AllDigits(s)
    ensures MatchesPhonePattern(s) <==> 10 <= |s| <= 15
  {
    if |s| > 0 {
      assert IsDigit(s[0]);
    }
  }

  /** The scenario phone "01012345678" is accepted; "010-1234-5678" is rejected. */
  lemma ScenarioPhones()
    ensures MatchesPhonePattern("01012345678")
    ensures ValidEmailFindRequest(EmailFindRequest(Some("01012345678")))
    ensures !MatchesPhonePattern("010-1234-5678")
    ensures ValidateSignup(SignupRequest(Some("user@mentalk.com"), Some("password"), Some("user"), Some("010-1234-5678"))).Failure?
  {
    PhonePatternNotBlank("01012345678");
    assert !IsDigit("010-1234-5678"[3]);
  }
}
