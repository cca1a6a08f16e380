/** The profile form of frontend/components/modal/ProfileUpdateModal.jsx:
    filling the form from the user, the skill list editor, and the
    multipart fields `handleSubmit` sends to the profile update. */
module ProfileForm {
  import opened Wrappers
  import opened Text
  import opened JsValues
  import opened Validation
  import opened Selection
  import Profiles

  datatype Form = Form(
    name: string,
    email: string,
    phone: string,
    gender: string,
    dateOfBirth: string,
    organization: string,
    skills: seq<string>,
    bio: string,
    country: string,
    city: string,
    exactLocation: string)

  // ----- filling the form -----

  /** `value || ''` on a string field. */
  function OrEmpty(o: Option<string>): (s: string)
    ensures o.None? ==> s == []
    ensures o.Some? ==> s == o.value
  {
    if o.Some? then o.value else ""
  }

  /** `s.split('T')[0]`: the part of an ISO date-time before its `T`. */
  function DatePart(s: string): (r: string)
    ensures 'T' !in r
    ensures r <= s
    ensures |r| < |s| ==> s[|r|] == 'T'
  {
    if s == [] || s[0] == 'T' then []
    else
      var rest := DatePart(s[1..]);
      assert s == [s[0]] + s[1..];
      [s[0]] + rest
  }

  /** The date part of a date-time `d` + `T` + time is `d`, so an ISO
      value such as `2001-02-03T00:00:00.000Z` gives `2001-02-03`. */
  lemma {:induction false} DatePartOfDateTime(d: string, time: string)
    requires 'T' !in d
    ensures DatePart(d + "T" + time) == d
  {
    if d != [] {
      assert (d + "T" + time)[1..] == d[1..] + "T" + time;
      assert 'T' !in d[1..];
      DatePartOfDateTime(d[1..], time);
      assert d == [d[0]] + d[1..];
    }
  }

  /** The `useEffect` that fills the form from the user: a missing value
      becomes `''`; `iso` is `new Date(d).toISOString()`. */
  function Populate(u: Profiles.User, iso: int -> string): (f: Form)
    ensures f.skills == u.skills
    ensures f.name == OrEmpty(u.name) && f.email == OrEmpty(u.email) && f.phone == OrEmpty(u.phone)
    ensures f.gender == OrEmpty(u.gender) && f.organization == OrEmpty(u.organization)
    ensures f.bio == OrEmpty(u.bio) && f.country == OrEmpty(u.country) && f.city == OrEmpty(u.city)
    ensures f.exactLocation == OrEmpty(u.exactLocation)
    ensures u.dateOfBirth.None? ==> f.dateOfBirth == []
    ensures u.dateOfBirth.Some? ==> f.dateOfBirth == DatePart(iso(u.dateOfBirth.value))
    ensures u.dateOfBirth.Some? ==> f.dateOfBirth <= iso(u.dateOfBirth.value) && 'T' !in f.dateOfBirth
  {
    Form(OrEmpty(u.name), OrEmpty(u.email), OrEmpty(u.phone), OrEmpty(u.gender),
         if u.dateOfBirth.Some? then DatePart(iso(u.dateOfBirth.value)) else "",
         OrEmpty(u.organization), u.skills, OrEmpty(u.bio), OrEmpty(u.country), OrEmpty(u.city),
         OrEmpty(u.exactLocation))
  }

  // ----- the skill editor -----

  /** The skill list and the text typed in the skill box. */
  datatype SkillEdit = SkillEdit(skills: seq<string>, input: string)

  /** `handleAddSkill`: the trimmed input is appended when it is not empty
      and not in the list yet, and the box is then cleared; otherwise
      nothing changes. */
  function AddSkill(e: SkillEdit): (r: SkillEdit)
    ensures r.skills == e.skills || r.skills == e.skills + [Trim(e.input)]
    ensures r.skills != e.skills <==> Trim(e.input) != [] && Trim(e.input) !in e.skills
    ensures r.skills != e.skills ==> r.input == []
    ensures r.skills == e.skills ==> r == e
  {
    var t := Trim(e.input);
    if t != [] && t !in e.skills then SkillEdit(e.skills + [t], "") else e
  }

  /** A list the editor keeps: no duplicates, no empty skill, and no skill
      with white space around it. */
  predicate Clean(xs: seq<string>) {
    NoDup(xs) && forall i | 0 <= i < |xs| :: xs[i] != [] && Trim(xs[i]) == xs[i]
  }

  /** Adding keeps the list clean. */
  lemma AddSkillKeepsClean(e: SkillEdit)
    requires Clean(e.skills)
    ensures Clean(AddSkill(e).skills)
  {
    var t := Trim(e.input);
    if t != [] && t !in e.skills {
      var r := e.skills + [t];
      TrimIdempotent(e.input);
      forall i, j | 0 <= i < j < |r| ensures r[i] != r[j] {
        if j == |e.skills| {
          assert r[i] == e.skills[i];
        }
      }
    }
  }

  /** Removing the skill just added gives back the list from before. */
  lemma AddThenRemove(e: SkillEdit)
    requires AddSkill(e).skills != e.skills
    ensures Remove(AddSkill(e).skills, Trim(e.input)) == e.skills
  {
    var t := Trim(e.input);
    RemoveAppend(e.skills, [t], t);
    RemoveAbsent(e.skills, t);
    assert Remove([t], t) == [];
  }

  /** Removing keeps the list clean. */
  lemma RemoveKeepsClean(xs: seq<string>, skill: string)
    requires Clean(xs)
    ensures Clean(Remove(xs, skill))
  {
    RemoveNoDup(xs, skill);
    var r := Remove(xs, skill);
    forall i | 0 <= i < |r| ensures r[i] != [] && Trim(r[i]) == r[i] {
      assert r[i] in xs;
    }
  }

  // ----- submitting -----

  /** The multipart fields: every field as a string, and `skills` as
      `JSON.stringify` of the list. */
  function Fields(f: Form): Body {
    map["name" := Str(f.name), "email" := Str(f.email), "phone" := Str(f.phone), "gender" := Str(f.gender),
        "dateOfBirth" := Str(f.dateOfBirth), "organization" := Str(f.organization),
        "skills" := Profiles.FormSkills(f.skills), "bio" := Str(f.bio), "country" := Str(f.country),
        "city" := Str(f.city), "exactLocation" := Str(f.exactLocation)]
  }

  /** What becomes of the skill list the form sends: the handler as written
      keeps the stored list whatever the form held, while the intended rule
      stores the form's list, which the editor keeps clean. */
  lemma SubmittedSkills(f: Form, stored: seq<string>)
    requires Clean(f.skills)
    ensures Profiles.SkillsAsWritten(Field(Fields(f), "skills"), stored) == Some(stored)
    ensures Profiles.SkillsIntended(Field(Fields(f), "skills"), stored) == Some(f.skills)
  {
    assert Field(Fields(f), "skills") == Profiles.FormSkills(f.skills);
    Profiles.SkillsEditLost(f.skills, stored);
    Profiles.SkillsEditKept(f.skills, stored);
  }
}
