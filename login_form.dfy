/** The login and registration form of
    frontend/components/modal/LoginModal.jsx: the five password rules, the
    error map `validateForm` fills in, and the payload `handleSubmit`
    sends, checked against the backend's own registration rules. */
module LoginForm {
  import opened Text
  import opened JsValues
  import opened Validation

  /** The five flags `validatePassword` returns. */
  datatype Rules = Rules(length: bool, uppercase: bool, lowercase: bool, number: bool, special: bool)

  /** The characters of `/[!@#$%^&*(),.?":{}|<>]/`. */
  const SpecialChars := "!@#$%^&*(),.?\":{}|<>"

  predicate HasUpper(s: string) { exists i | 0 <= i < |s| :: 'A' <= s[i] <= 'Z' }
  predicate HasLower(s: string) { exists i | 0 <= i < |s| :: 'a' <= s[i] <= 'z' }
  predicate HasDigit(s: string) { exists i | 0 <= i < |s| :: IsDigit(s[i]) }
  predicate HasSpecial(s: string) { exists i | 0 <= i < |s| :: s[i] in SpecialChars }

  /** `validatePassword`: the length counts UTF-16 code units. */
  function PasswordRules(p: string): Rules {
    Rules(Utf16Length(p) >= 8, HasUpper(p), HasLower(p), HasDigit(p), HasSpecial(p))
  }

  predicate Strong(r: Rules) {
    r.length && r.uppercase && r.lowercase && r.number && r.special
  }

  datatype Form = Form(email: string, password: string, name: string, confirmPassword: string)

  const EmailRequired := "Email is required"
  const PasswordRequired := "Password is required"
  const NameRequired := "Name is required"
  const PasswordWeak := "Password does not meet requirements"
  const PasswordsDiffer := "Passwords do not match"

  /** `validateForm`: the error map, filled in field by field, and whether
      it stayed empty. In login mode only presence is checked; in register
      mode a weak password replaces the presence message, and the
      confirmation must match. */
  method ValidateForm(f: Form, isLogin: bool) returns (errors: map<string, string>, valid: bool)
    ensures valid <==> errors == map[]
    ensures errors.Keys <= {"email", "password", "name", "confirmPassword"}
    ensures "email" in errors <==> f.email == []
    ensures "email" in errors ==> errors["email"] == EmailRequired
    ensures "password" in errors <==> f.password == [] || (!isLogin && !Strong(PasswordRules(f.password)))
    ensures "password" in errors && (isLogin || Strong(PasswordRules(f.password))) ==> errors["password"] == PasswordRequired
    ensures "password" in errors && !isLogin && !Strong(PasswordRules(f.password)) ==> errors["password"] == PasswordWeak
    ensures "name" in errors <==> !isLogin && f.name == []
    ensures "confirmPassword" in errors <==> !isLogin && f.password != f.confirmPassword
  {
    errors := map[];
    if f.email == [] {
      errors := errors["email" := EmailRequired];
    }
    if f.password == [] {
      errors := errors["password" := PasswordRequired];
    }
    if !isLogin {
      if f.name == [] {
        errors := errors["name" := NameRequired];
      }
      var rules := PasswordRules(f.password);
      if !Strong(rules) {
        errors := errors["password" := PasswordWeak];
      }
      if f.password != f.confirmPassword {
        errors := errors["confirmPassword" := PasswordsDiffer];
      }
    }
    valid := errors.Keys == {};
  }

  /** The request body: e-mail and password to log in, and the name as
      well to register; the confirmation never leaves the form. */
  function Payload(f: Form, isLogin: bool): (b: Body)
    ensures "confirmPassword" !in b
    ensures isLogin ==> b.Keys == {"email", "password"}
    ensures !isLogin ==> b.Keys == {"name", "email", "password"} && Field(b, "name") == Str(f.name)
    ensures Field(b, "email") == Str(f.email) && Field(b, "password") == Str(f.password)
  {
    if isLogin then map["email" := Str(f.email), "password" := Str(f.password)]
    else map["name" := Str(f.name), "email" := Str(f.email), "password" := Str(f.password)]
  }

  /** A password the register form accepts also meets the backend's
      registration rule (present and at least 6 long), since the form asks
      for 8. */
  lemma StrongPasswordPassesBackend(f: Form)
    requires Strong(PasswordRules(f.password))
    ensures PasswordOk(Field(Payload(f, false), "password"))
  {
    assert f.password != [];
  }

  /** The form's name check is looser than the backend's: a one-letter
      name, or a blank one, is sent and then refused by the registration
      validator. */
  lemma FormNameLooser(f: Form)
    requires f.name == "A" || f.name == "  "
    ensures f.name != []
    ensures !NameOk(Field(Payload(f, false), "name"))
  {
    if f.name == "A" {
      assert Trim(f.name) == "A" by { TrimOfTrimmed("A"); }
    } else {
      TrimShape(f.name);
      assert AllSpace(f.name);
    }
  }

  /** A concrete password the register form accepts. */
  lemma StrongExample()
    ensures Strong(PasswordRules("Passw0rd!"))
    ensures !Strong(PasswordRules("password1!"))
  {
    var p := "Passw0rd!";
    assert 'A' <= p[0] <= 'Z' && 'a' <= p[1] <= 'z' && IsDigit(p[5]) && p[8] == SpecialChars[0];
    var q := "password1!";
    assert !HasUpper(q) by {
      forall i | 0 <= i < |q| ensures !('A' <= q[i] <= 'Z') {
      }
    }
  }
}
