/** The user profile update of backend/server.js (`PUT /api/profile`): the
    body first goes through `sanitizeUserInput`, then the handler checks the
    token, the name and the e-mail, refuses an e-mail another user holds,
    and merges the request into the stored user, keeping a stored value
    wherever the request's value is falsy. */
module Profiles {
  import opened Wrappers
  import opened Text
  import opened JsValues
  import opened Json
  import opened Validation
  import opened Sanitization
  import opened Schemas
  import DonationModel

  const Genders: set<string> := {"Male", "Female", "Non-binary", "Prefer not to say", "Other"}

  /** The fields of backend/models/User.js the profile touches. */
  datatype User = User(
    id: Id,
    name: Option<string>,
    email: Option<string>,
    phone: Option<string>,
    gender: Option<string>,
    dateOfBirth: Option<int>,
    organization: Option<string>,
    skills: seq<string>,
    profilePicture: Option<string>,
    bio: Option<string>,
    country: Option<string>,
    city: Option<string>,
    exactLocation: Option<string>,
    isAdmin: bool)

  /** What `save()` checks of a user: name and e-mail are required, the
      gender is one of the `enum` values, and the bio has at most 500
      characters. */
  predicate UserOk(u: User) {
    && u.name.Some? && u.name.value != []
    && u.email.Some? && u.email.value != []
    && (u.gender.Some? ==> u.gender.value in Genders)
    && (u.bio.Some? ==> Utf16Length(u.bio.value) <= 500)
  }

  /** `user.f = v || user.f` on a trimmed String field: a falsy value keeps
      the stored one; a truthy one goes through the String cast, which
      fails (`None`) for an array or for an object without a string `_id`. */
  function Assign(v: JsValue, stored: Option<string>): (r: Option<Option<string>>)
    ensures !Truthy(v) ==> r == Some(stored)
    ensures Truthy(v) && v.Str? ==> r == Some(Some(Trim(v.s)))
    ensures r.None? <==> v.Arr? || (v.Obj? && DonationModel.DocumentId(v).None?)
  {
    if !Truthy(v) then Some(stored)
    else
      var c := DonationModel.CastString(v);
      if c.Text? then Some(Some(c.s)) else None
  }

  /** What `Assign` leaves in a field once it succeeded. */
  predicate Merged(v: JsValue, stored: Option<string>, now: Option<string>) {
    && (!Truthy(v) ==> now == stored)
    && (Truthy(v) && v.Str? ==> now == Some(Trim(v.s)))
  }

  /** The cast of each element of an array assigned to a `[String]` field. */
  function CastItems(items: seq<JsValue>): (r: Option<seq<string>>)
    ensures r.Some? <==> forall i | 0 <= i < |items| :: DonationModel.CastString(items[i]).Text?
    ensures r.Some? ==> |r.value| == |items|
    ensures r.Some? ==> forall i | 0 <= i < |items| :: r.value[i] == DonationModel.CastString(items[i]).s
  {
    if items == [] then Some([])
    else
      var c := DonationModel.CastString(items[0]);
      var rest := CastItems(items[1..]);
      assert forall i | 1 <= i < |items| :: items[1..][i - 1] == items[i];
      if c.Text? && rest.Some? then Some([c.s] + rest.value) else None
  }

  // ----- skills -----

  /** What the profile form sends for its skill list: a multipart field
      holding `JSON.stringify(skills)`. */
  function FormSkills(xs: seq<string>): JsValue {
    Str(Stringify(Arr(Strs(xs))))
  }

  /** `Array.isArray(skills) ? skills : user.skills`, as written: only an
      array replaces the stored list. */
  function SkillsAsWritten(v: JsValue, stored: seq<string>): (r: Option<seq<string>>)
    ensures !v.Arr? ==> r == Some(stored)
  {
    if v.Arr? then CastItems(v.items) else Some(stored)
  }

  /** A list sent by the profile form never reaches the stored user: the
      form's string is not an array, so the stored list is kept. */
  lemma SkillsEditLost(xs: seq<string>, stored: seq<string>)
    ensures SkillsAsWritten(FormSkills(xs), stored) == Some(stored)
  {
  }

  /** The smallest case: adding a first skill in the form and saving leaves
      the user with no skills. */
  lemma SkillsEditLostExample()
    ensures SkillsAsWritten(FormSkills(["Teaching"]), []) == Some([])
    ensures Some([]) != Some(["Teaching"])
  {
  }

  /** The evidently intended rule, as the project handler already does for
      `sdgs`: an array is used as it is, a string holding a JSON array is
      parsed first, and anything else keeps the stored list. */
  function SkillsIntended(v: JsValue, stored: seq<string>): (r: Option<seq<string>>)
    ensures v.Arr? ==> r == CastItems(v.items)
    ensures !v.Arr? && !v.Str? ==> r == Some(stored)
  {
    if v.Arr? then CastItems(v.items)
    else if v.Str? && Parse(v.s).Some? && Parse(v.s).value.Arr? then CastItems(Parse(v.s).value.items)
    else Some(stored)
  }

  /** With the intended rule the list the form sends is the list stored
      (the form only ever holds trimmed skills). */
  lemma SkillsEditKept(xs: seq<string>, stored: seq<string>)
    requires forall i | 0 <= i < |xs| :: Trim(xs[i]) == xs[i]
    ensures SkillsIntended(FormSkills(xs), stored) == Some(xs)
  {
    assert SkillsIntended(FormSkills(xs), stored) == CastItems(Strs(xs)) by {
      ParseStringifyStrings(xs);
    }
    CastStrings(xs);
  }

  /** Casting a list of trimmed strings gives the list back. */
  lemma CastStrings(xs: seq<string>)
    requires forall i | 0 <= i < |xs| :: Trim(xs[i]) == xs[i]
    ensures CastItems(Strs(xs)) == Some(xs)
  {
    var items := Strs(xs);
    forall i | 0 <= i < |items| ensures DonationModel.CastString(items[i]) == DonationModel.Text(xs[i]) {
      assert items[i] == Str(xs[i]);
    }
    var r := CastItems(items);
    assert r.Some? && |r.value| == |xs|;
    assert forall i | 0 <= i < |xs| :: r.value[i] == xs[i];
    assert r.value == xs;
  }

  // ----- the merge -----

  /** The field assignments of the handler on the sanitised body `b`;
      `None` when a cast fails, which makes `save()` fail. `picture` is the
      uploaded file's name, if any, and `dateOf` is `new Date(v)`, `None`
      for an invalid date. */
  function Merge(u: User, b: Body, picture: Option<string>, dateOf: JsValue -> Option<int>): (r: Option<User>)
    ensures r.Some? ==> r.value.id == u.id && r.value.isAdmin == u.isAdmin
    ensures r.Some? ==>
      && Merged(Field(b, "name"), u.name, r.value.name)
      && Merged(Field(b, "phone"), u.phone, r.value.phone)
      && Merged(Field(b, "gender"), u.gender, r.value.gender)
      && Merged(Field(b, "organization"), u.organization, r.value.organization)
      && Merged(Field(b, "bio"), u.bio, r.value.bio)
      && Merged(Field(b, "country"), u.country, r.value.country)
      && Merged(Field(b, "city"), u.city, r.value.city)
      && Merged(Field(b, "exactLocation"), u.exactLocation, r.value.exactLocation)
    ensures r.Some? ==> r.value.profilePicture == (if picture.Some? then Some("/uploads/" + picture.value) else u.profilePicture)
    ensures r.Some? && !Truthy(Field(b, "dateOfBirth")) ==> r.value.dateOfBirth == u.dateOfBirth
    ensures r.Some? ==> Some(r.value.skills) == SkillsIntended(Field(b, "skills"), u.skills)
  {
    var name := Assign(Field(b, "name"), u.name);
    var email := Assign(Field(b, "email"), u.email);
    var phone := Assign(Field(b, "phone"), u.phone);
    var gender := Assign(Field(b, "gender"), u.gender);
    var organization := Assign(Field(b, "organization"), u.organization);
    var bio := Assign(Field(b, "bio"), u.bio);
    var country := Assign(Field(b, "country"), u.country);
    var city := Assign(Field(b, "city"), u.city);
    var exactLocation := Assign(Field(b, "exactLocation"), u.exactLocation);
    var dob := Field(b, "dateOfBirth");
    var skills := SkillsIntended(Field(b, "skills"), u.skills);
    if name.None? || email.None? || phone.None? || gender.None? || organization.None? || bio.None?
       || country.None? || city.None? || exactLocation.None? || skills.None?
       || (Truthy(dob) && dateOf(dob).None?)
    then None
    else
      Some(User(u.id, name.value, if email.value.Some? then Some(ToLower(email.value.value)) else None,
                phone.value, gender.value, if Truthy(dob) then dateOf(dob) else u.dateOfBirth,
                organization.value, skills.value,
                if picture.Some? then Some("/uploads/" + picture.value) else u.profilePicture,
                bio.value, country.value, city.value, exactLocation.value, u.isAdmin))
  }

  // ----- the handler -----

  datatype ProfileReply = Updated(user: User) | Refused(code: nat, error: string)

  const NameRequired := "Name is required"
  const EmailRequired := "Email is required"
  const EmailInUse := "Email already in use"
  const ServerError := "Server error"

  /** How a stored optional string compares with a request value. */
  function Stored(o: Option<string>): JsValue {
    if o.Some? then Str(o.value) else Undefined
  }

  /** `User.findOne({email})` finds someone. */
  predicate EmailTaken(users: map<Id, User>, v: JsValue) {
    v.Str? && exists k | k in users :: users[k].email == Some(v.s)
  }

  /** The whole request: the sanitiser's TypeError ends in Express's error
      handler (500); otherwise the handler runs on the sanitised body. */
  function UpdateProfile(users: map<Id, User>, auth: Auth, raw: Body, picture: Option<string>,
                         dateOf: JsValue -> Option<int>): (r: ProfileReply)
    ensures r.Updated? ==> auth.Token? && auth.userId in users && r.user.id == users[auth.userId].id
    ensures r.Updated? ==> UserOk(r.user)
  {
    var s := SanitizeUser(raw);
    if !s.ok then Refused(500, ServerError) else Handle(users, auth, s.body, picture, dateOf)
  }

  /** The handler: the token, name and e-mail checks, in that order; then
      the user lookup and the e-mail uniqueness check; a rejected token and
      a failed save are 500s from the handler's `catch`. */
  function Handle(users: map<Id, User>, auth: Auth, b: Body, picture: Option<string>,
                  dateOf: JsValue -> Option<int>): (r: ProfileReply)
    ensures r.Updated? ==> auth.Token? && auth.userId in users && r.user.id == users[auth.userId].id
    ensures r.Updated? ==> UserOk(r.user)
  {
    if auth.NoToken? then Refused(401, "No token provided")
    else if !Truthy(Field(b, "name")) then Refused(400, NameRequired)
    else if !Truthy(Field(b, "email")) then Refused(400, EmailRequired)
    else if auth.BadToken? then Refused(500, ServerError)
    else if auth.userId !in users then Refused(404, "User not found")
    else
      var u := users[auth.userId];
      if Field(b, "email") != Stored(u.email) && EmailTaken(users, Field(b, "email")) then Refused(400, EmailInUse)
      else
        match Merge(u, b, picture, dateOf)
        case None => Refused(500, ServerError)
        case Some(m) => if UserOk(m) then Updated(m) else Refused(500, ServerError)
  }

  /** What an accepted update did, on the sanitised body: the name and
      e-mail were truthy, a changed e-mail was free, and every field holds
      its merged value. */
  lemma HandleEffect(users: map<Id, User>, auth: Auth, b: Body, picture: Option<string>,
                     dateOf: JsValue -> Option<int>)
    requires Handle(users, auth, b, picture, dateOf).Updated?
    ensures var m := Handle(users, auth, b, picture, dateOf).user;
      var u := users[auth.userId];
      var e := Field(b, "email");
      && Truthy(Field(b, "name")) && Truthy(e)
      && (e != Stored(u.email) ==> !EmailTaken(users, e))
      && (e.Str? ==> m.email == Some(ToLower(Trim(e.s))))
      && Merge(u, b, picture, dateOf) == Some(m)
  {
  }

  lemma ProfileFieldsListed()
    ensures "name" in UserFields && "email" in UserFields && "phone" in UserFields
    ensures "bio" in UserFields && "city" in UserFields
    ensures "gender" in UserFields && "organization" in UserFields
    ensures "country" in UserFields && "exactLocation" in UserFields
    ensures "dateOfBirth" !in UserFields
    ensures "email" in Lowered && "name" !in Lowered && "phone" !in Lowered
    ensures "bio" !in Lowered && "city" !in Lowered
    ensures "gender" !in Lowered && "organization" !in Lowered
    ensures "country" !in Lowered && "exactLocation" !in Lowered
  {
  }

  /** A listed field after a sanitiser run that did not throw. */
  lemma UserFieldSanitized(raw: Body, k: string)
    requires k in UserFields && SanitizeUser(raw).ok
    ensures Field(SanitizeUser(raw).body, k) == Normalised(Field(raw, k), k in Lowered)
    ensures !Throws(Field(raw, k))
  {
    SanitizeUserEffect(raw);
  }

  /** The fallback to the stored value never applies to the name and the
      e-mail: an empty one is refused with 400 even though the user has a
      stored one, since `req.user` is never set on this route. */
  lemma EmptyNameRefused(users: map<Id, User>, auth: Auth, raw: Body, picture: Option<string>,
                         dateOf: JsValue -> Option<int>)
    requires SanitizeUser(raw).ok && !auth.NoToken?
    requires Field(raw, "name") == Str("")
    ensures UpdateProfile(users, auth, raw, picture, dateOf) == Refused(400, NameRequired)
  {
    ProfileFieldsListed();
    UserFieldSanitized(raw, "name");
  }

  /** An accepted update stores the submitted e-mail trimmed and
      lower-cased, and the submitted name trimmed. */
  lemma UpdateProfileEffect(users: map<Id, User>, auth: Auth, raw: Body, picture: Option<string>,
                            dateOf: JsValue -> Option<int>)
    requires UpdateProfile(users, auth, raw, picture, dateOf).Updated?
    ensures var m := UpdateProfile(users, auth, raw, picture, dateOf).user;
      var email, name := Field(raw, "email"), Field(raw, "name");
      && email.Str? && m.email == Some(ToLower(Trim(email.s)))
      && name.Str? && m.name == Some(Trim(name.s))
  {
    var b := SanitizeUser(raw).body;
    ProfileFieldsListed();
    UserFieldSanitized(raw, "email");
    UserFieldSanitized(raw, "name");
    HandleEffect(users, auth, b, picture, dateOf);
    var e := Field(raw, "email");
    TrimLowerCommute(Trim(e.s));
    TrimIdempotent(e.s);
    ToLowerIdempotent(Trim(e.s));
    TrimIdempotent(Field(raw, "name").s);
  }

  /** A listed field the request leaves falsy reaches the handler as it was. */
  lemma FalsyFieldUntouched(raw: Body, k: string)
    requires k in UserFields && SanitizeUser(raw).ok
    ensures !Truthy(Field(raw, k)) ==> Field(SanitizeUser(raw).body, k) == Field(raw, k)
  {
    UserFieldSanitized(raw, k);
  }

  /** An accepted update keeps each optional field the request left falsy
      (missing, `null` or `''`), the date of birth included. */
  lemma UpdateProfileKeeps(users: map<Id, User>, auth: Auth, raw: Body, picture: Option<string>,
                           dateOf: JsValue -> Option<int>)
    requires UpdateProfile(users, auth, raw, picture, dateOf).Updated?
    ensures var m := UpdateProfile(users, auth, raw, picture, dateOf).user;
      var u := users[auth.userId];
      && (!Truthy(Field(raw, "phone")) ==> m.phone == u.phone)
      && (!Truthy(Field(raw, "bio")) ==> m.bio == u.bio)
      && (!Truthy(Field(raw, "city")) ==> m.city == u.city)
      && (!Truthy(Field(raw, "gender")) ==> m.gender == u.gender)
      && (!Truthy(Field(raw, "organization")) ==> m.organization == u.organization)
      && (!Truthy(Field(raw, "country")) ==> m.country == u.country)
      && (!Truthy(Field(raw, "exactLocation")) ==> m.exactLocation == u.exactLocation)
      && (!Truthy(Field(raw, "dateOfBirth")) ==> m.dateOfBirth == u.dateOfBirth)
      && m.isAdmin == u.isAdmin
  {
    var b := SanitizeUser(raw).body;
    var u := users[auth.userId];
    assert UpdateProfile(users, auth, raw, picture, dateOf) == Handle(users, auth, b, picture, dateOf);
    HandleEffect(users, auth, b, picture, dateOf);
    ProfileFieldsListed();
    FalsyFieldUntouched(raw, "phone");
    FalsyFieldUntouched(raw, "bio");
    FalsyFieldUntouched(raw, "city");
    FalsyFieldUntouched(raw, "gender");
    FalsyFieldUntouched(raw, "organization");
    FalsyFieldUntouched(raw, "country");
    FalsyFieldUntouched(raw, "exactLocation");
    UnlistedFieldUntouched(raw, "dateOfBirth");
  }

  /** A field the sanitiser does not list reaches the handler as it was. */
  lemma UnlistedFieldUntouched(raw: Body, k: string)
    requires k !in UserFields && k != "skills"
    ensures Field(SanitizeUser(raw).body, k) == Field(raw, k)
  {
    SanitizeUserEffect(raw);
  }

  /** No two users share an e-mail. */
  predicate UniqueEmails(users: map<Id, User>) {
    forall j, k | j in users && k in users && j != k && users[j].email.Some? :: users[j].email != users[k].email
  }

  /** Storing a user whose e-mail is its old one, or one nobody holds,
      keeps e-mails unique. */
  lemma StoreKeepsEmailsUnique(users: map<Id, User>, id: Id, m: User, e: JsValue)
    requires UniqueEmails(users) && id in users && e.Str? && m.email == Some(e.s)
    requires e == Stored(users[id].email) || !EmailTaken(users, e)
    ensures UniqueEmails(users[id := m])
  {
    var after := users[id := m];
    forall j, k | j in after && k in after && j != k && after[j].email.Some?
      ensures after[j].email != after[k].email
    {
      if j == id && e != Stored(users[id].email) {
        assert users[k].email != Some(e.s);
      } else if k == id && e != Stored(users[id].email) {
        assert users[j].email != Some(e.s);
      }
    }
  }

  /** An accepted update keeps e-mails unique, as the `unique` index on
      `email` demands. */
  lemma UpdateKeepsEmailsUnique(users: map<Id, User>, auth: Auth, raw: Body, picture: Option<string>,
                                dateOf: JsValue -> Option<int>)
    requires UniqueEmails(users)
    requires UpdateProfile(users, auth, raw, picture, dateOf).Updated?
    ensures UniqueEmails(users[auth.userId := UpdateProfile(users, auth, raw, picture, dateOf).user])
  {
    UpdatedEmail(users, auth, raw, picture, dateOf);
    StoreKeepsEmailsUnique(users, auth.userId, UpdateProfile(users, auth, raw, picture, dateOf).user,
                           Field(SanitizeUser(raw).body, "email"));
  }

  /** The e-mail an accepted update stores is the sanitised one, and it is
      either the user's own or not taken. */
  lemma UpdatedEmail(users: map<Id, User>, auth: Auth, raw: Body, picture: Option<string>,
                     dateOf: JsValue -> Option<int>)
    requires UpdateProfile(users, auth, raw, picture, dateOf).Updated?
    ensures var m := UpdateProfile(users, auth, raw, picture, dateOf).user;
      var e := Field(SanitizeUser(raw).body, "email");
      && auth.Token? && auth.userId in users
      && e.Str? && m.email == Some(e.s)
      && (e == Stored(users[auth.userId].email) || !EmailTaken(users, e))
  {
    var b := SanitizeUser(raw).body;
    assert SanitizeUser(raw).ok && Handle(users, auth, b, picture, dateOf) == UpdateProfile(users, auth, raw, picture, dateOf);
    HandleEffect(users, auth, b, picture, dateOf);
    SanitizedEmail(raw);
  }

  /** A truthy e-mail the sanitiser let through is a string that trimming
      and lower-casing leave as it is. */
  lemma SanitizedEmail(raw: Body)
    requires SanitizeUser(raw).ok && Truthy(Field(SanitizeUser(raw).body, "email"))
    ensures var e := Field(SanitizeUser(raw).body, "email");
      e.Str? && ToLower(Trim(e.s)) == e.s
  {
    ProfileFieldsListed();
    UserFieldSanitized(raw, "email");
    var s := Field(raw, "email").s;
    assert Field(SanitizeUser(raw).body, "email") == Str(ToLower(Trim(s)));
    TrimLowerCommute(Trim(s));
    TrimIdempotent(s);
    ToLowerIdempotent(Trim(s));
  }
}
