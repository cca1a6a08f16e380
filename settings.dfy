/** The site settings of backend/models/Settings.js and the two admin
    settings endpoints of backend/server.js: a single document with
    defaults, created on first read, changed field by field on update, and a
    pre-save hook that refuses a second document. */
module SiteSettings {
  import opened Wrappers
  import opened Text
  import opened JsValues
  import opened Validation
  import DonationModel

  /** The settings document; `None` is a field holding `null`, which an
      update can store. */
  datatype Settings = Settings(
    emailNotifications: Option<bool>,
    autoApproveOffers: Option<bool>,
    maintenanceMode: Option<bool>,
    smtpServer: Option<string>,
    adminEmail: Option<string>,
    siteName: Option<string>,
    contactEmail: Option<string>,
    maxProjectsPerUser: Option<int>,
    allowUserRegistration: Option<bool>)

  /** `new Settings()`: every field at its schema default. */
  const Defaults := Settings(Some(true), Some(false), Some(false), Some("smtp.gmail.com"),
                             Some("owadgijagor@gmail.com"), Some("SDG Connect"),
                             Some("owadgijagor@gmail.com"), Some(10), Some(true))

  /** One field of an update request after the cast to the field's type:
      `undefined` leaves the field, `null` clears it, and any other value
      is stored as cast. */
  datatype Change<T> = Keep | Clear | Put(value: T)

  datatype Patch = Patch(
    emailNotifications: Change<bool>,
    autoApproveOffers: Change<bool>,
    maintenanceMode: Change<bool>,
    smtpServer: Change<string>,
    adminEmail: Change<string>,
    siteName: Change<string>,
    contactEmail: Change<string>,
    maxProjectsPerUser: Change<int>,
    allowUserRegistration: Change<bool>)

  /** What a field holds after a change, given what it held before. */
  predicate Updated<T(==)>(c: Change<T>, before: Option<T>, after: Option<T>) {
    match c
    case Keep => after == before
    case Clear => after == None
    case Put(v) => after == Some(v)
  }

  function Over<T(==)>(c: Change<T>, before: Option<T>): (after: Option<T>)
    ensures Updated(c, before, after)
  {
    match c
    case Keep => before
    case Clear => None
    case Put(v) => Some(v)
  }

  /** `if (x !== undefined) settings.x = x` for each of the nine fields. */
  function Apply(s: Settings, p: Patch): (r: Settings)
    ensures Updated(p.emailNotifications, s.emailNotifications, r.emailNotifications)
    ensures Updated(p.autoApproveOffers, s.autoApproveOffers, r.autoApproveOffers)
    ensures Updated(p.maintenanceMode, s.maintenanceMode, r.maintenanceMode)
    ensures Updated(p.smtpServer, s.smtpServer, r.smtpServer)
    ensures Updated(p.adminEmail, s.adminEmail, r.adminEmail)
    ensures Updated(p.siteName, s.siteName, r.siteName)
    ensures Updated(p.contactEmail, s.contactEmail, r.contactEmail)
    ensures Updated(p.maxProjectsPerUser, s.maxProjectsPerUser, r.maxProjectsPerUser)
    ensures Updated(p.allowUserRegistration, s.allowUserRegistration, r.allowUserRegistration)
  {
    Settings(Over(p.emailNotifications, s.emailNotifications), Over(p.autoApproveOffers, s.autoApproveOffers),
             Over(p.maintenanceMode, s.maintenanceMode), Over(p.smtpServer, s.smtpServer),
             Over(p.adminEmail, s.adminEmail), Over(p.siteName, s.siteName), Over(p.contactEmail, s.contactEmail),
             Over(p.maxProjectsPerUser, s.maxProjectsPerUser), Over(p.allowUserRegistration, s.allowUserRegistration))
  }

  const Empty := Patch(Keep, Keep, Keep, Keep, Keep, Keep, Keep, Keep, Keep)

  /** An update that sets nothing leaves the settings as they are, and an
      update is idempotent. */
  lemma ApplyLaws(s: Settings, p: Patch)
    ensures Apply(s, Empty) == s
    ensures Apply(Apply(s, p), p) == Apply(s, p)
  {
  }

  // ----- casting the request -----

  /** The cast to a Boolean path; `None` is a cast error. */
  function CastFlag(v: JsValue): (r: Option<Change<bool>>)
    ensures v.Bool? ==> r == Some(Put(v.b))
    ensures r.None? <==> !v.Undefined? && !v.Null? && DonationModel.CastBoolean(v).None?
  {
    match v
    case Undefined => Some(Keep)
    case Null => Some(Clear)
    case _ =>
      match DonationModel.CastBoolean(v)
      case None => None
      case Some(b) => Some(Put(b))
  }

  /** The cast to a String path without setters: numbers and booleans are
      printed, an object standing for a document gives its `_id`, and any
      other array or object is a cast error. */
  function CastText(v: JsValue): (r: Option<Change<string>>)
    ensures v.Str? ==> r == Some(Put(v.s))
    ensures r.None? <==> v.Arr? || (v.Obj? && DonationModel.DocumentId(v).None?)
    ensures v.Obj? && r.Some? ==> r == Some(Put(Member(v.members, "_id").s)) && Member(v.members, "_id").s != []
  {
    match v
    case Undefined => Some(Keep)
    case Null => Some(Clear)
    case Bool(b) => Some(Put(if b then "true" else "false"))
    case Num(n) => Some(Put(IntToString(n)))
    case Str(s) => Some(Put(s))
    case Obj(_) => if DonationModel.DocumentId(v).Some? then Some(Put(DonationModel.DocumentId(v).value)) else None
    case Arr(_) => None
  }

  /** `castNumber` on a value that is not `undefined`: the empty string is
      `null`, other strings and booleans go through `Number()`, and a string
      that is not a number, an array or an object is a cast error. */
  function CastNumber(v: JsValue): (r: Option<Change<int>>)
    requires !v.Undefined?
    ensures v.Num? ==> r == Some(Put(v.n))
    ensures v == Str([]) ==> r == Some(Clear)
    ensures v.Arr? || v.Obj? ==> r.None?
    ensures v.Str? && v.s != [] ==> (r.None? <==> StringToNumber(v.s).None?)
  {
    match v
    case Null => Some(Clear)
    case Str(s) =>
      if s == [] then Some(Clear)
      else (match StringToNumber(s) case None => None case Some(n) => Some(Put(n)))
    case Bool(b) => Some(Put(if b then 1 else 0))
    case Num(n) => Some(Put(n))
    case _ => None
  }

  /** The cast to a Number path: an object with an `_id` member stands for
      a document and is cast through that member, once. */
  function CastCount(v: JsValue): (r: Option<Change<int>>)
    ensures v.Undefined? ==> r == Some(Keep)
    ensures v.Num? ==> r == Some(Put(v.n))
    ensures v == Str([]) ==> r == Some(Clear)
    ensures v.Arr? ==> r.None?
    ensures v.Obj? && Member(v.members, "_id").Undefined? ==> r.None?
    ensures v.Obj? && (Member(v.members, "_id").Arr? || Member(v.members, "_id").Obj?) ==> r.None?
    ensures v.Obj? && Member(v.members, "_id").Num? ==> r == Some(Put(Member(v.members, "_id").n))
    ensures v.Str? && v.s != [] ==> (r.None? <==> StringToNumber(v.s).None?)
  {
    match v
    case Undefined => Some(Keep)
    case Obj(ms) => if Member(ms, "_id").Undefined? then None else CastNumber(Member(ms, "_id"))
    case _ => CastNumber(v)
  }

  /** The nine fields of the request body, each cast to its path's type;
      `None` when any of them fails, which makes `save()` reject. */
  function CastPatch(body: Body): Option<Patch> {
    var en, ao, mm := CastFlag(Field(body, "emailNotifications")), CastFlag(Field(body, "autoApproveOffers")),
                      CastFlag(Field(body, "maintenanceMode"));
    var ss, ae, sn := CastText(Field(body, "smtpServer")), CastText(Field(body, "adminEmail")),
                      CastText(Field(body, "siteName"));
    var ce, mp, ar := CastText(Field(body, "contactEmail")), CastCount(Field(body, "maxProjectsPerUser")),
                      CastFlag(Field(body, "allowUserRegistration"));
    if en.None? || ao.None? || mm.None? || ss.None? || ae.None? || sn.None? || ce.None? || mp.None? || ar.None? then None
    else Some(Patch(en.value, ao.value, mm.value, ss.value, ae.value, sn.value, ce.value, mp.value, ar.value))
  }

  /** A field the request leaves out keeps its stored value, a `null` clears
      it, and a value of the field's own type replaces it. */
  lemma PatchFields(s: Settings, body: Body)
    requires CastPatch(body).Some?
    ensures var r := Apply(s, CastPatch(body).value);
      && (Field(body, "siteName").Undefined? ==> r.siteName == s.siteName)
      && (Field(body, "siteName").Null? ==> r.siteName == None)
      && (Field(body, "siteName").Str? ==> r.siteName == Some(Field(body, "siteName").s))
      && (Field(body, "maxProjectsPerUser").Undefined? ==> r.maxProjectsPerUser == s.maxProjectsPerUser)
      && (Field(body, "maxProjectsPerUser").Num? ==> r.maxProjectsPerUser == Some(Field(body, "maxProjectsPerUser").n))
      && (Field(body, "maintenanceMode").Undefined? ==> r.maintenanceMode == s.maintenanceMode)
      && (Field(body, "maintenanceMode").Bool? ==> r.maintenanceMode == Some(Field(body, "maintenanceMode").b))
  {
  }

  /** The limit given as a binary numeral is stored as its value, as
      `Number()` reads it. */
  lemma BinaryLimitStored(body: Body)
    requires Field(body, "maxProjectsPerUser") == Str("0b11")
    ensures CastCount(Field(body, "maxProjectsPerUser")) == Some(Put(3))
  {
    BinaryNumber();
  }

  /** A value the field's cast refuses makes the whole update fail: a
      Boolean field given a string other than the accepted spellings, the
      limit given a string that is not a number, or a String field given an
      array or an object that does not carry a string `_id`. */
  lemma BadValueRejected(body: Body)
    requires || (Field(body, "emailNotifications").Str?
                 && Field(body, "emailNotifications").s !in {"true", "1", "yes", "false", "0", "no"})
             || (Field(body, "maxProjectsPerUser").Str? && Field(body, "maxProjectsPerUser").s != []
                 && StringToNumber(Field(body, "maxProjectsPerUser").s).None?)
             || Field(body, "siteName").Arr?
             || (Field(body, "siteName").Obj? && !Member(Field(body, "siteName").members, "_id").Str?)
    ensures CastPatch(body).None?
  {
  }

  /** The one collection of settings documents. */
  class SettingsStore {
    var docs: seq<Settings>

    /** At most one settings document exists. */
    predicate Valid()
      reads this
    {
      |docs| <= 1
    }

    constructor ()
      ensures docs == [] && Valid()
    {
      docs := [];
    }

    /** `save()`: the pre-save hook refuses a new document when one already
        exists; re-saving the existing one skips that check and replaces it. */
    method Save(s: Settings, isNew: bool) returns (saved: bool)
      requires Valid()
      modifies this
      ensures Valid()
      ensures saved <==> !isNew || old(docs) == []
      ensures saved ==> docs == [s]
      ensures !saved ==> docs == old(docs)
    {
      if isNew && docs != [] {
        saved := false;
        return;
      }
      docs := [s];
      saved := true;
    }

    /** GET `/api/admin/settings`: the stored document, or a new one with the
        defaults, saved first. */
    method Read() returns (s: Settings)
      requires Valid()
      modifies this
      ensures Valid()
      ensures old(docs) != [] ==> s == old(docs)[0] && docs == old(docs)
      ensures old(docs) == [] ==> s == Defaults && docs == [Defaults]
    {
      if docs != [] {
        s := docs[0];
      } else {
        s := Defaults;
        var saved := Save(s, true);
      }
    }

    /** PUT `/api/admin/settings`: the stored document, or a fresh one with
        the defaults, with each given field replaced, then saved; 500 with
        nothing stored when a value fails its cast. */
    method Update(body: Body) returns (code: nat, s: Settings)
      requires Valid()
      modifies this
      ensures Valid()
      ensures CastPatch(body).None? ==> code == 500 && docs == old(docs)
      ensures CastPatch(body).Some? ==>
        && code == 200
        && s == Apply(if old(docs) != [] then old(docs)[0] else Defaults, CastPatch(body).value)
        && docs == [s]
    {
      var isNew := docs == [];
      var current := if isNew then Defaults else docs[0];
      var p := CastPatch(body);
      if p.None? {
        return 500, current;
      }
      s := Apply(current, p.value);
      var saved := Save(s, isNew);
      code := 200;
    }
  }
}
