/** The user service's `createUserSchema`
    (user-service/src/validations/userSchemas.js). Unlike the register
    schema of the login service, it does not trim the e-mail or the phone
    number and puts no character-set rule on the username. zod's e-mail
    pattern is not part of this model: `isEmail` stands for it. */
module UserSchemas {
  import opened Wrappers
  import opened JsText
  import opened Validation

  datatype CreateUserInput = CreateUserInput(email: string, username: string, phoneNumber: string,
                                             passwordHash: string, role: string)
  datatype CreateUserData = CreateUserData(email: string, username: string, phoneNumber: string,
                                           passwordHash: string, role: Role)

  /** All issues, in field order. */
  function CreateUserIssues(input: CreateUserInput, isEmail: string -> bool): seq<Issue>
  {
    Check(isEmail(input.email), "email", "Invalid email format")
      + Check(|Trim(input.username)| >= 3, "username", "Username must be at least 3 characters long")
      + Check(MatchPhone(input.phoneNumber), "phoneNumber", "Invalid phone number format")
      + Check(|input.passwordHash| >= 20, "passwordHash", "Password hash appears invalid")
      + (match ParseRole(input.role) case Ok(_) => [] case Err(e) => [e])
  }

  /** `createUserSchema.parse(input)`. */
  function ParseCreateUser(input: CreateUserInput, isEmail: string -> bool): (r: Result<CreateUserData, seq<Issue>>)
    ensures r.Ok? <==>
      && isEmail(input.email)
      && |Trim(input.username)| >= 3
      && MatchPhone(input.phoneNumber)
      && |input.passwordHash| >= 20
      && (input.role == "gardener" || input.role == "admin")
    ensures r.Ok? ==>
      && r.value.email == input.email && r.value.username == Trim(input.username)
      && r.value.phoneNumber == input.phoneNumber && r.value.passwordHash == input.passwordHash
      && RoleName(r.value.role) == input.role
    ensures r.Err? ==> r.error != [] && r.error == CreateUserIssues(input, isEmail)
  {
    var issues := CreateUserIssues(input, isEmail);
    if issues == [] then
      Ok(CreateUserData(input.email, Trim(input.username), input.phoneNumber, input.passwordHash,
                        ParseRole(input.role).value))
    else Err(issues)
  }

  /** Surrounding spaces make a phone number fail here, whatever it is. */
  lemma PaddedPhoneRefused(s: string)
    ensures !MatchPhone(" " + s)
    ensures !MatchPhone(s + " ")
  {
    MatchPhoneIff(" " + s);
    MatchPhoneIff(s + " ");
    var t := s + " ";
    assert !IsDigit(t[|t| - 1]);
    if |t| > 0 && t[0] == '+' {
      assert t[1..][|t[1..]| - 1] == ' ';
    }
  }

  /** Any username of three or more characters once trimmed passes,
      punctuation included, unlike the login service's rule. */
  lemma UsernameHasNoCharsetRule(input: CreateUserInput, isEmail: string -> bool)
    requires isEmail(input.email) && MatchPhone(input.phoneNumber) && |input.passwordHash| >= 20
    requires input.role == "admin"
    requires Trim(input.username) == "a-b!"
    ensures ParseCreateUser(input, isEmail).Ok?
  {
  }
}
