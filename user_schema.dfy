/** The request schemas of the user routes, as rule data for the
    validator, and what each of them accepts. */
module UserSchema {
  import opened JsValues
  import opened Patterns
  import opened Validator

  const NameRule := Rule("string", Some(2), Some(50), None, None, None, None, [])
  const EmailRule := Rule("string", None, None, None, None, Some(EmailPattern), Some("Email must be a valid email address"), [])
  const PasswordRule := Rule("string", Some(6), Some(100), None, None, None, None, [])
  const TokenRule := TypeRule("string")

  const RegisterBody := ObjectSchema(["name", "email", "password"],
                                     [("name", NameRule), ("email", EmailRule), ("password", PasswordRule)])
  const LoginBody := ObjectSchema(["email", "password"], [("email", EmailRule), ("password", PasswordRule)])
  const ForgotPasswordBody := ObjectSchema(["email"], [("email", EmailRule)])
  const ResetPasswordBody := ObjectSchema(["token", "password"], [("token", TokenRule), ("password", PasswordRule)])
  const UpdateProfileBody := ObjectSchema([], [("name", NameRule), ("email", EmailRule)])

  const RegisterSchema := Schema(Some(RegisterBody), None, None)
  const LoginSchema := Schema(Some(LoginBody), None, None)
  const ForgotPasswordSchema := Schema(Some(ForgotPasswordBody), None, None)
  const ResetPasswordSchema := Schema(Some(ResetPasswordBody), None, None)
  const UpdateProfileSchema := Schema(Some(UpdateProfileBody), None, None)

  /** A name of 2 to 50 characters. */
  predicate ValidName(body: map<string, Value>) { StringWithin(body, "name", 2, 50) }

  /** A string that the email rule accepts. */
  predicate ValidEmail(body: map<string, Value>) { StringMatching(body, "email", EmailPattern) }

  /** A password of 6 to 100 characters. */
  predicate ValidPassword(body: map<string, Value>) { StringWithin(body, "password", 6, 100) }

  lemma NamePasses(body: map<string, Value>)
    ensures FieldPasses(body, "name", NameRule) <==> Absent(body, "name") || ValidName(body)
  {
    StringRuleVerdict("name", NameRule, Get(body, "name"));
  }

  lemma EmailPasses(body: map<string, Value>)
    ensures FieldPasses(body, "email", EmailRule) <==> Absent(body, "email") || ValidEmail(body)
  {
    StringRuleVerdict("email", EmailRule, Get(body, "email"));
  }

  lemma PasswordPasses(body: map<string, Value>)
    ensures FieldPasses(body, "password", PasswordRule) <==> Absent(body, "password") || ValidPassword(body)
  {
    StringRuleVerdict("password", PasswordRule, Get(body, "password"));
  }

  lemma TokenPasses(body: map<string, Value>)
    ensures FieldPasses(body, "token", TokenRule) <==> Absent(body, "token") || Get(body, "token").Str?
  {
    StringRuleVerdict("token", TokenRule, Get(body, "token"));
  }

  /** Registration needs a name, an email and a password, each well formed. */
  lemma RegisterAccepts(body: map<string, Value>)
    ensures DataErrors(body, RegisterBody) == [] <==> ValidName(body) && ValidEmail(body) && ValidPassword(body)
  {
    var s := RegisterBody;
    DataErrorsEmptyIff(body, s);
    NamePasses(body);
    EmailPasses(body);
    PasswordPasses(body);
    PropertiesPass(body, s.properties);
    RequiredPresent(body, s.required);
  }

  /** Login needs a well-formed email and a password of 6 to 100 characters. */
  lemma LoginAccepts(body: map<string, Value>)
    ensures DataErrors(body, LoginBody) == [] <==> ValidEmail(body) && ValidPassword(body)
  {
    var s := LoginBody;
    DataErrorsEmptyIff(body, s);
    EmailPasses(body);
    PasswordPasses(body);
    PropertiesPass(body, s.properties);
    RequiredPresent(body, s.required);
  }

  lemma ForgotPasswordAccepts(body: map<string, Value>)
    ensures DataErrors(body, ForgotPasswordBody) == [] <==> ValidEmail(body)
  {
    var s := ForgotPasswordBody;
    DataErrorsEmptyIff(body, s);
    EmailPasses(body);
    PropertiesPass(body, s.properties);
    RequiredPresent(body, s.required);
  }

  /** The reset token is only required to be a string: any string, the
      empty one included, passes. */
  lemma ResetPasswordAccepts(body: map<string, Value>)
    ensures DataErrors(body, ResetPasswordBody) == [] <==> Get(body, "token").Str? && ValidPassword(body)
  {
    var s := ResetPasswordBody;
    DataErrorsEmptyIff(body, s);
    TokenPasses(body);
    PasswordPasses(body);
    PropertiesPass(body, s.properties);
    RequiredPresent(body, s.required);
  }

  /** A profile update may omit either field; a present one must be well formed. */
  lemma UpdateProfileAccepts(body: map<string, Value>)
    ensures DataErrors(body, UpdateProfileBody) == [] <==>
              (Absent(body, "name") || ValidName(body)) && (Absent(body, "email") || ValidEmail(body))
  {
    var s := UpdateProfileBody;
    DataErrorsEmptyIff(body, s);
    NamePasses(body);
    EmailPasses(body);
    PropertiesPass(body, s.properties);
    RequiredPresent(body, s.required);
  }

  /** In particular an empty profile update passes. */
  lemma EmptyProfileUpdatePasses()
    ensures DataErrors(map[], UpdateProfileBody) == []
  {
    UpdateProfileAccepts(map[]);
  }

  /** A registration without a password is told exactly that. */
  lemma MissingPasswordReported(body: map<string, Value>)
    requires Absent(body, "password")
    ensures FieldError("password", RequiredMessage("password")) in DataErrors(body, RegisterBody)
  {
    RequiredErrorIff(body, RegisterBody.required, "password");
    var e :| e in RequiredErrors(body, RegisterBody.required) && e.field == "password";
  }

  /** A `null` name or password makes registration throw, so the client
      gets a 500 rather than a validation error: both rules carry length
      bounds. A `null` email only draws errors, since its rule has none. */
  lemma RegisterThrowsIff(body: map<string, Value>)
    ensures PartThrows(RegisterSchema.body, body) <==> Get(body, "name").Null? || Get(body, "password").Null?
  {
    var p := RegisterBody.properties;
    assert p[0] == ("name", NameRule) && p[1] == ("email", EmailRule) && p[2] == ("password", PasswordRule);
    if Get(body, "name").Null? {
      assert ReadsNullLength(p[0].1, Get(body, p[0].0));
    } else if Get(body, "password").Null? {
      assert ReadsNullLength(p[2].1, Get(body, p[2].0));
    }
  }
}
