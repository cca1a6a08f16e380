/** The project and event form of
    frontend/components/modal/ProjectEventModal.jsx: the SDG checkboxes,
    the image file filter, the multipart fields `handleSubmit` sends, and
    the reset after a successful submit. */
module ProjectEventForm {
  import opened Wrappers
  import opened Text
  import opened JsValues
  import opened Json
  import opened Validation
  import opened Sanitization
  import opened Selection

  datatype Form = Form(
    kind: string,                 // `type`
    title: string,
    sdgs: seq<string>,
    startDate: string,
    endDate: string,
    country: string,
    city: string,
    exactLocation: string,
    sponsors: string,
    organizers: string,
    briefInfo: string,
    peopleRequired: string,
    resourcesRequired: string,
    otherInfo: string)

  /** The initial state, which a successful submit restores. */
  const Initial := Form("project", "", [], "", "", "", "", "", "", "", "", "", "", "")

  /** `handleSdgChange`. */
  function ToggleSdg(f: Form, sdg: string): (r: Form)
    ensures r.sdgs == Toggle(f.sdgs, sdg)
    ensures r.(sdgs := f.sdgs) == f
  {
    f.(sdgs := Toggle(f.sdgs, sdg))
  }

  /** Checking a box the form does not hold and unchecking it again gives
      back the same form, and the list never holds an SDG twice. */
  lemma ToggleSdgLaws(f: Form, sdg: string)
    requires NoDup(f.sdgs)
    ensures NoDup(ToggleSdg(f, sdg).sdgs)
    ensures sdg !in f.sdgs ==> ToggleSdg(ToggleSdg(f, sdg), sdg) == f
  {
    ToggleNoDup(f.sdgs, sdg);
    ToggleTwice(f.sdgs, sdg);
  }

  // ----- the image file -----

  datatype File = File(name: string, mime: string, size: int)

  const MaxImageSize := 5 * 1024 * 1024

  /** `/jpeg|jpg|png|gif/.test(s)`: one of the four names occurs anywhere. */
  predicate ImageWord(s: string) {
    Contains(s, "jpeg") || Contains(s, "jpg") || Contains(s, "png") || Contains(s, "gif")
  }

  /** The name is lower-cased before the test, the MIME type is not. */
  predicate Acceptable(file: File) {
    ImageWord(file.mime) && ImageWord(ToLower(file.name)) && file.size <= MaxImageSize
  }

  /** `handleFileChange`: the picked file replaces the chosen one when it
      passes the type and size checks; no file, or a refused one, leaves
      the choice as it was. */
  function ChooseFile(current: Option<File>, picked: Option<File>): (r: Option<File>)
    ensures picked.Some? && Acceptable(picked.value) ==> r == picked
    ensures picked.None? || !Acceptable(picked.value) ==> r == current
  {
    match picked
    case None => current
    case Some(file) =>
      if !ImageWord(file.mime) || !ImageWord(ToLower(file.name)) then current
      else if file.size > MaxImageSize then current
      else picked
  }

  /** The test looks for the words anywhere, not at the end of the name:
      `photo.png.exe` sent as `image/png` is taken. */
  lemma WordAnywhere(current: Option<File>)
    ensures ChooseFile(current, Some(File("photo.png.exe", "image/png", 10))) == Some(File("photo.png.exe", "image/png", 10))
  {
    assert OccursAt("image/png", "png", 6);
    assert OccursAt(ToLower("photo.png.exe"), "png", 6);
  }

  /** The MIME type is compared as given: `a.png` sent as `IMAGE/PNG` is
      refused. */
  lemma MimeCaseKept(current: Option<File>)
    ensures ChooseFile(current, Some(File("a.png", "IMAGE/PNG", 10))) == current
  {
    var m := "IMAGE/PNG";
    forall w, i | w in ["jpeg", "jpg", "png", "gif"] && 0 <= i <= |m| - |w| ensures !OccursAt(m, w, i) {
      assert m[i] != w[0];
    }
  }

  /** The name is lower-cased, and a file of exactly 5 MiB is taken. */
  lemma SizeLimitInclusive(current: Option<File>)
    ensures ChooseFile(current, Some(File("SCAN.GIF", "image/gif", MaxImageSize))) == Some(File("SCAN.GIF", "image/gif", MaxImageSize))
  {
    assert OccursAt("image/gif", "gif", 6);
    assert ToLower("SCAN.GIF") == "scan.gif";
    assert OccursAt("scan.gif", "gif", 5);
  }

  /** One byte over the limit is refused. */
  lemma OverSizeLimit(current: Option<File>)
    ensures ChooseFile(current, Some(File("b.png", "image/png", MaxImageSize + 1))) == current
  {
  }

  // ----- submitting -----

  /** The multipart fields: every field as typed, and `sdgs` as
      `JSON.stringify` of the list. */
  function Fields(f: Form): Body {
    map["type" := Str(f.kind), "title" := Str(f.title), "sdgs" := Str(Stringify(Arr(Strs(f.sdgs)))),
        "startDate" := Str(f.startDate), "endDate" := Str(f.endDate), "country" := Str(f.country),
        "city" := Str(f.city), "exactLocation" := Str(f.exactLocation), "sponsors" := Str(f.sponsors),
        "organizers" := Str(f.organizers), "briefInfo" := Str(f.briefInfo),
        "peopleRequired" := Str(f.peopleRequired), "resourcesRequired" := Str(f.resourcesRequired),
        "otherInfo" := Str(f.otherInfo)]
  }

  /** What the form sends always gets through the backend's sanitiser,
      which turns the `sdgs` string back into the list of SDGs the form
      held; the creation validator's SDG rule then holds exactly when at
      least one box was checked. */
  lemma SubmittedSdgsArrive(f: Form)
    ensures SanitizeProject(Fields(f)).ok
    ensures Field(SanitizeProject(Fields(f)).body, "sdgs") == Arr(Strs(f.sdgs))
    ensures SdgsOk(Field(SanitizeProject(Fields(f)).body, "sdgs")) <==> f.sdgs != []
  {
    var b := Fields(f);
    assert forall k | k in b :: b[k].Str?;
    assert Field(b, "sdgs") == Str(Stringify(Arr(Strs(f.sdgs))));
    SanitizeStrings(b, f.sdgs);
  }

  /** A body of strings passes the project sanitiser, and a stringified
      list of SDGs in it comes back as that list. */
  lemma SanitizeStrings(b: Body, sdgs: seq<string>)
    requires forall k | k in b :: b[k].Str?
    requires Field(b, "sdgs") == Str(Stringify(Arr(Strs(sdgs))))
    ensures SanitizeProject(b).ok
    ensures Field(SanitizeProject(b).body, "sdgs") == Arr(Strs(sdgs))
  {
    ProjectFieldsDistinct();
    TrimAllEffect(b, ProjectFields, {});
    var t := TrimAll(Run(b, true), ProjectFields, {});
    forall k ensures !Throws(Field(b, k)) {
      if k in b {
        assert b[k].Str?;
      }
    }
    SdgsUnlisted();
    FixStringifiedSdgs(t, sdgs);
  }

  /** The `sdgs` step turns a stringified list of SDGs back into the list. */
  lemma FixStringifiedSdgs(r: Run, sdgs: seq<string>)
    requires r.ok && Field(r.body, "sdgs") == Str(Stringify(Arr(Strs(sdgs))))
    ensures FixSdgs(r).ok && Field(FixSdgs(r).body, "sdgs") == Arr(Strs(sdgs))
  {
    ParseStringifyStrings(sdgs);
    FixParsedSdgs(r, Stringify(Arr(Strs(sdgs))), Arr(Strs(sdgs)));
  }

  /** The form after a submit: back to the initial values once the server
      accepted it, unchanged otherwise. */
  function AfterSubmit(f: Form, accepted: bool): (r: Form)
    ensures accepted ==> r == Initial && r.sdgs == [] && r.kind == "project" && r.title == []
    ensures !accepted ==> r == f
  {
    if accepted then Initial else f
  }
}
