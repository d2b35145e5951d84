/** The request schemas of the login service
    (login-service/src/validations/loginSchemas.js): `loginSchema` and
    `registerSchema`. A parse either yields the cleaned values (trimmed
    where the schema trims) or the list of issues, field by field in the
    schema's order and, within a field, check by check.

    zod's e-mail pattern is not part of this model: `isEmail` stands for
    it. Fields are assumed present and of string type. */
module LoginSchemas {
  import opened Wrappers
  import opened JsText
  import opened Validation

  datatype LoginInput = LoginInput(email: string, password: string)
  datatype LoginData = LoginData(email: string, password: string)

  /** `loginSchema`: a trimmed e-mail, and a password of at least one
      character, not trimmed. */
  function ParseLogin(input: LoginInput, isEmail: string -> bool): (r: Result<LoginData, seq<Issue>>)
    ensures r.Ok? <==> isEmail(Trim(input.email)) && |input.password| >= 1
    ensures r.Ok? ==> r.value == LoginData(Trim(input.email), input.password)
    ensures |input.password| == 0 ==> Issue("password", "Password is required") in r.error
    ensures r.Err? ==>
      r.error == Check(isEmail(Trim(input.email)), "email", "Invalid email format")
                 + Check(|input.password| >= 1, "password", "Password is required")
    ensures !isEmail(Trim(input.email)) ==> r.Err? && r.error[0] == Issue("email", "Invalid email format")
  {
    var issues := Check(isEmail(Trim(input.email)), "email", "Invalid email format")
      + Check(|input.password| >= 1, "password", "Password is required");
    if issues == [] then Ok(LoginData(Trim(input.email), input.password)) else Err(issues)
  }

  /** The issues of a register username (after trimming): too short, and
      outside `[A-Za-z0-9_]`, each reported on its own. */
  function UsernameIssues(raw: string): (issues: seq<Issue>)
    ensures issues == [] <==> |Trim(raw)| >= 3 && forall i :: 0 <= i < |Trim(raw)| ==> IsWordChar(Trim(raw)[i])
  {
    var u := Trim(raw);
    Check(|u| >= 3, "username", "Username must be at least 3 characters long")
      + Check(MatchWord(u), "username", "Username can only contain letters, numbers, and underscores")
  }

  /** The phone number, after trimming, against `^\+?[0-9]{8,15}$`. */
  function PhoneIssues(raw: string): (issues: seq<Issue>)
  {
    Check(MatchPhone(Trim(raw)), "phoneNumber", "Invalid phone number format")
  }

  predicate HasUpper(p: string) { exists i :: 0 <= i < |p| && IsUpper(p[i]) }
  predicate HasLower(p: string) { exists i :: 0 <= i < |p| && IsLower(p[i]) }
  predicate HasDigit(p: string) { exists i :: 0 <= i < |p| && IsDigit(p[i]) }
  predicate HasSpecial(p: string) { exists i :: 0 <= i < |p| && !IsAlnum(p[i]) }

  /** The register password policy: at least eight characters, with an
      ASCII upper-case letter, a lower-case letter, a digit and a
      character that is none of these. The password is not trimmed. */
  predicate StrongPassword(p: string)
  {
    |p| >= 8 && HasUpper(p) && HasLower(p) && HasDigit(p) && HasSpecial(p)
  }

  /** The password checks, run in order, each failing one reporting its own
      message. */
  function PasswordIssues(p: string): (issues: seq<Issue>)
    ensures issues == [] <==> StrongPassword(p)
    ensures Issue("password", "Password must contain an uppercase letter") in issues <==> !HasUpper(p)
    ensures Issue("password", "Password must contain a special character") in issues <==> !HasSpecial(p)
  {
    TestIff(p, Upper);
    TestIff(p, LowerCase);
    TestIff(p, Digit);
    TestIff(p, NonAlnum);
    Check(|p| >= 8, "password", "Password must be at least 8 characters long")
      + Check(Test(p, Upper), "password", "Password must contain an uppercase letter")
      + Check(Test(p, LowerCase), "password", "Password must contain a lowercase letter")
      + Check(Test(p, Digit), "password", "Password must contain a number")
      + Check(Test(p, NonAlnum), "password", "Password must contain a special character")
  }

  datatype RegisterInput = RegisterInput(email: string, username: string, phoneNumber: string, password: string,
                                         role: string)
  datatype RegisterData = RegisterData(email: string, username: string, phoneNumber: string, password: string,
                                       role: Role)

  /** All issues of a register request, in field order. */
  function RegisterIssues(input: RegisterInput, isEmail: string -> bool): seq<Issue>
  {
    Check(isEmail(Trim(input.email)), "email", "Invalid email format")
      + UsernameIssues(input.username)
      + PhoneIssues(input.phoneNumber)
      + PasswordIssues(input.password)
      + (match ParseRole(input.role) case Ok(_) => [] case Err(e) => [e])
  }

  /** `registerSchema`. */
  function ParseRegister(input: RegisterInput, isEmail: string -> bool): (r: Result<RegisterData, seq<Issue>>)
    ensures r.Ok? <==>
      && isEmail(Trim(input.email))
      && |Trim(input.username)| >= 3 && MatchWord(Trim(input.username))
      && MatchPhone(Trim(input.phoneNumber))
      && StrongPassword(input.password)
      && (input.role == "gardener" || input.role == "admin")
    ensures r.Ok? ==>
      && r.value.email == Trim(input.email) && r.value.username == Trim(input.username)
      && r.value.phoneNumber == Trim(input.phoneNumber) && r.value.password == input.password
      && RoleName(r.value.role) == input.role
    ensures r.Err? ==> r.error != [] && r.error == RegisterIssues(input, isEmail)
  {
    var issues := RegisterIssues(input, isEmail);
    if issues == [] then
      Ok(RegisterData(Trim(input.email), Trim(input.username), Trim(input.phoneNumber), input.password,
                      ParseRole(input.role).value))
    else Err(issues)
  }

  /** A phone number padded with spaces passes the register schema, which
      trims before matching, and comes out without the padding. */
  lemma PaddedPhoneAccepted(s: string)
    requires MatchPhone(s)
    ensures PhoneIssues(" " + s + " ") == []
    ensures Trim(" " + s + " ") == s
  {
    PhoneHasNoOuterSpace(s);
    TrimPadded(s);
  }
}
