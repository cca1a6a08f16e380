/** The request validators of backend/middleware/validation.js. Each one
    reads the request body, collects every failed rule's message in a fixed
    order and either answers 400 with those messages or passes the request
    on. They never write to the body, so they are functions of it here. */
module Validation {
  import opened Wrappers
  import opened Text
  import opened JsValues

  type Body = map<string, JsValue>

  /** `req.body[key]`: a missing field reads as `undefined`. */
  function Field(body: Body, key: string): JsValue {
    if key in body then body[key] else Undefined
  }

  /** What a validator does with the request. `Fault` is a TypeError thrown
      inside the middleware, which Express hands to the error handler. */
  datatype Outcome =
    | Next
    | Reject(status: nat, success: bool, error: string, details: seq<string>)
    | Fault

  const Failed := "Validation failed"

  /** The 400 answer for the collected messages, or `next()` when there are none. */
  function Decide(errors: seq<string>): (r: Outcome)
    ensures r.Next? <==> errors == []
    ensures r.Reject? ==> r == Reject(400, false, Failed, errors)
    ensures !r.Fault?
  {
    if errors == [] then Next else Reject(400, false, Failed, errors)
  }

  function If(cond: bool, msg: string): seq<string> {
    if cond then [msg] else []
  }

  // ----- the e-mail pattern -----

  /** A character `[^\s@]` accepts. */
  predicate PlainChar(c: char) {
    !IsSpace(c) && c != '@'
  }

  predicate AllPlain(s: string) {
    forall k | 0 <= k < |s| :: PlainChar(s[k])
  }

  /** `s` splits as `[^\s@]+` `@` `[^\s@]+` `\.` `[^\s@]+` with the `@` at
      `i` and the dot at `j`. */
  predicate EmailSplit(s: string, i: int, j: int) {
    0 < i && i + 1 < j && j + 1 < |s| && s[i] == '@' && s[j] == '.'
    && AllPlain(s[..i]) && AllPlain(s[i + 1..j]) && AllPlain(s[j + 1..])
  }

  /** `/^[^\s@]+@[^\s@]+\.[^\s@]+$/.test(s)`. */
  predicate MatchesEmail(s: string) {
    exists i, j | 0 <= i < j < |s| :: EmailSplit(s, i, j)
  }

  /** `!email || !regex.test(email)` fails: the value is truthy and its
      string form matches. */
  predicate EmailOk(v: JsValue) {
    Truthy(v) && MatchesEmail(ToJsString(v))
  }

  /** An address that passes has exactly one `@`, no white space, and a dot
      with text on both sides after the `@`. */
  lemma {:induction false} MatchedEmailShape(s: string, i: int, j: int)
    requires EmailSplit(s, i, j)
    ensures forall k | 0 <= k < |s| :: !IsSpace(s[k])
    ensures forall k | 0 <= k < |s| :: s[k] == '@' <==> k == i
  {
    forall k | 0 <= k < |s| ensures !IsSpace(s[k]) && (s[k] == '@' <==> k == i) {
      if k < i {
        assert s[k] == s[..i][k];
      } else if i < k < j {
        assert s[k] == s[i + 1..j][k - i - 1];
      } else if j < k {
        assert s[k] == s[j + 1..][k - j - 1];
      }
    }
  }

  /** Without an `@`, or with white space in it, an address is refused. */
  lemma {:induction false} EmailNeedsAt(s: string)
    requires (forall k | 0 <= k < |s| :: s[k] != '@') || (exists k | 0 <= k < |s| :: IsSpace(s[k]))
    ensures !MatchesEmail(s)
  {
    if MatchesEmail(s) {
      var i, j :| 0 <= i < j < |s| && EmailSplit(s, i, j);
      MatchedEmailShape(s, i, j);
    }
  }

  /** A matching address stays matching once lower-cased, so the donation
      and user sanitisers, which lower-case e-mails, never turn a valid one
      into an invalid one. */
  lemma {:induction false} EmailLowerCase(s: string, i: int, j: int)
    requires EmailSplit(s, i, j)
    ensures EmailSplit(ToLower(s), i, j)
  {
    var l := ToLower(s);
    forall x: string, y: string | y == ToLower(x) && AllPlain(x) ensures AllPlain(y) {
      forall k | 0 <= k < |y| ensures PlainChar(y[k]) {
        LowerCharKeepsSpace(x[k]);
      }
    }
    assert l[..i] == ToLower(s[..i]);
    assert l[i + 1..j] == ToLower(s[i + 1..j]);
    assert l[j + 1..] == ToLower(s[j + 1..]);
  }

  // ----- validateRegistration -----

  const NameMessage := "Name must be at least 2 characters long"
  const EmailMessage := "Valid email is required"
  const PasswordMessage := "Password must be at least 6 characters long"

  /** `!name || typeof name !== 'string' || name.trim().length < 2` fails. */
  predicate NameOk(v: JsValue) {
    v.Str? && Utf16Length(Trim(v.s)) >= 2
  }

  /** `value.length < n`: strings and arrays have a length; for an object
      the `length` member is converted with `Number`, and a comparison with
      `NaN` (no member, `undefined`, an object, unreadable text) is false;
      the other values have no `length` and the comparison is false. */
  predicate ShorterThan(v: JsValue, n: int) {
    match v
    case Str(s) => Utf16Length(s) < n
    case Arr(items) => |items| < n
    case Obj(members) => var l := ToNumber(Member(members, "length")); l.Some? && l.value < n
    case _ => false
  }

  /** `!password || password.length < 6` fails. */
  predicate PasswordOk(v: JsValue) {
    Truthy(v) && !ShorterThan(v, 6)
  }

  function RegistrationErrors(body: Body): seq<string> {
    If(!NameOk(Field(body, "name")), NameMessage)
    + If(!EmailOk(Field(body, "email")), EmailMessage)
    + If(!PasswordOk(Field(body, "password")), PasswordMessage)
  }

  function ValidateRegistration(body: Body): Outcome {
    Decide(RegistrationErrors(body))
  }

  /** The order in which registration messages are collected. */
  function RegistrationRank(msg: string): int {
    if msg == NameMessage then 0 else if msg == EmailMessage then 1 else 2
  }

  /** A registration passes exactly when all three rules hold; otherwise the
      answer is a 400 listing each failed rule once, and only those, in the
      order name, e-mail, password. */
  lemma RegistrationVerdict(body: Body)
    ensures var name, email, password := Field(body, "name"), Field(body, "email"), Field(body, "password");
      && (ValidateRegistration(body) == Next <==> NameOk(name) && EmailOk(email) && PasswordOk(password))
      && (ValidateRegistration(body).Reject? ==>
            var r := ValidateRegistration(body);
            && r.status == 400 && !r.success && r.error == Failed && r.details != []
            && (NameMessage in r.details <==> !NameOk(name))
            && (EmailMessage in r.details <==> !EmailOk(email))
            && (PasswordMessage in r.details <==> !PasswordOk(password))
            && forall a, b | 0 <= a < b < |r.details| ::
                 RegistrationRank(r.details[a]) < RegistrationRank(r.details[b]))
      && !ValidateRegistration(body).Fault?
  {
  }

  /** A password object whose `length` member converts to a number below 6
      is refused, whatever the member's type: `null`, `false`, `""` and `[]`
      all convert to 0. A `length` that converts to `NaN` is let through. */
  lemma ObjectPasswordLength(members: seq<Prop>)
    ensures var l := Member(members, "length");
      && (l.Null? || l == Bool(false) || l == Str([]) || l == Arr([]) ==> !PasswordOk(Obj(members)))
      && (l.Num? ==> (PasswordOk(Obj(members)) <==> l.n >= 6))
      && (l.Undefined? || l.Obj? ==> PasswordOk(Obj(members)))
  {
  }

  /** A registration whose name and e-mail pass but whose password is an
      object with a `null` `length`, such as `{"length": null}`, is refused
      with the password message alone. */
  lemma NullLengthRefused(body: Body, members: seq<Prop>)
    requires NameOk(Field(body, "name")) && EmailOk(Field(body, "email"))
    requires Field(body, "password") == Obj(members) && Member(members, "length") == Null
    ensures ValidateRegistration(body) == Reject(400, false, Failed, [PasswordMessage])
  {
  }

  // ----- validateLogin -----

  const PasswordRequired := "Password is required"

  function LoginErrors(body: Body): seq<string> {
    If(!EmailOk(Field(body, "email")), EmailMessage)
    + If(!Truthy(Field(body, "password")), PasswordRequired)
  }

  function ValidateLogin(body: Body): Outcome {
    Decide(LoginErrors(body))
  }

  /** Logging in needs only a well-formed e-mail and a non-empty password:
      a one-character password passes, unlike at registration. */
  lemma LoginVerdict(body: Body)
    ensures var email, password := Field(body, "email"), Field(body, "password");
      && (ValidateLogin(body) == Next <==> EmailOk(email) && Truthy(password))
      && (ValidateLogin(body).Reject? ==>
            var d := ValidateLogin(body).details;
            && d != [] && (EmailMessage in d <==> !EmailOk(email))
            && (PasswordRequired in d <==> !Truthy(password))
            && (|d| == 2 ==> d == [EmailMessage, PasswordRequired]))
  {
  }

  /** A short password that registration refuses is accepted by the login check. */
  lemma ShortPasswordLogsIn(email: string)
    requires MatchesEmail(email)
    ensures var body := map["email" := Str(email), "password" := Str("x")];
      ValidateLogin(body) == Next && PasswordMessage in ValidateRegistration(body).details
  {
    var body := map["email" := Str(email), "password" := Str("x")];
    assert Utf16Length("x") == 1;
    assert !PasswordOk(Field(body, "password"));
  }

  // ----- validateProjectCreation -----

  const TypeMessage := "Valid type (event or project) is required"
  const TitleMessage := "Title must be at least 3 characters long"
  const SdgsMessage := "At least one SDG must be selected"
  const DateMessage := "Valid start date is required"
  const BriefMessage := "Brief info must be at least 10 characters long"

  /** `['event', 'project'].includes(type)`. */
  predicate TypeOk(v: JsValue) {
    v == Str("event") || v == Str("project")
  }

  /** `!v || v.trim().length < n` fails: `Some(true)` when it holds,
      `Some(false)` when it does not, `None` when `v.trim` is not a
      function, which throws. */
  function TrimmedAtLeast(v: JsValue, n: nat): Option<bool> {
    if !Truthy(v) then Some(false)
    else if v.Str? then Some(Utf16Length(Trim(v.s)) >= n)
    else None
  }

  predicate SdgsOk(v: JsValue) {
    v.Arr? && v.items != []
  }

  /** `!startDate || isNaN(Date.parse(startDate))` fails; `parsesAsDate`
      stands for `Date.parse` returning a number. */
  predicate StartDateOk(v: JsValue, parsesAsDate: string -> bool) {
    Truthy(v) && parsesAsDate(ToJsString(v))
  }

  function ValidateProjectCreation(body: Body, parsesAsDate: string -> bool): Outcome {
    var title := TrimmedAtLeast(Field(body, "title"), 3);
    var brief := TrimmedAtLeast(Field(body, "briefInfo"), 10);
    if title.None? || brief.None? then Fault
    else
      Decide(
        If(!TypeOk(Field(body, "type")), TypeMessage)
        + If(!title.value, TitleMessage)
        + If(!SdgsOk(Field(body, "sdgs")), SdgsMessage)
        + If(!StartDateOk(Field(body, "startDate"), parsesAsDate), DateMessage)
        + If(!brief.value, BriefMessage))
  }

  /** A project passes exactly when its type is `event` or `project`, the
      trimmed title has at least 3 characters, `sdgs` is a non-empty array,
      the start date parses and the trimmed brief has at least 10
      characters; a truthy title or brief that is not a string throws. */
  lemma ProjectCreationVerdict(body: Body, parsesAsDate: string -> bool)
    ensures var r := ValidateProjectCreation(body, parsesAsDate);
      var title, brief := Field(body, "title"), Field(body, "briefInfo");
      && (r.Fault? <==> (Truthy(title) && !title.Str?) || (Truthy(brief) && !brief.Str?))
      && (r == Next <==>
            TypeOk(Field(body, "type")) && TrimmedAtLeast(title, 3) == Some(true)
            && SdgsOk(Field(body, "sdgs")) && StartDateOk(Field(body, "startDate"), parsesAsDate)
            && TrimmedAtLeast(brief, 10) == Some(true))
      && (r.Reject? ==>
            && r.status == 400 && r.details != [] && |r.details| <= 5
            && (TitleMessage in r.details <==> TrimmedAtLeast(title, 3) == Some(false))
            && (SdgsMessage in r.details <==> !SdgsOk(Field(body, "sdgs"))))
  {
  }
}
