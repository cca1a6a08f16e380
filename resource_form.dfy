/** The resource offer form of
    frontend/components/modal/ProvideResourcesModal.jsx: the checks
    `handleSubmit` runs before it posts, the body it posts, and how that
    body fares at the backend's resource handler. */
module ResourceForm {
  import opened Wrappers
  import opened Text
  import opened JsValues
  import opened Validation
  import Participation

  datatype Form = Form(resourceType: string, quantity: string, deliveryDate: string)

  const FieldsMissing := "All fields are required"
  const QuantityNotPositive := "Quantity must be greater than 0"
  const DateInPast := "Delivery date cannot be in the past"

  /** The checks, in order, and the message of the first that fails.
      `date` is `new Date(s)` (`None` for an invalid date) and `midnight`
      today's local midnight. A comparison with NaN is false, so an
      unparsable quantity or date passes its check. */
  function Check(f: Form, date: string -> Option<int>, midnight: int): (r: Option<string>)
    ensures r == Some(FieldsMissing) <==> Trim(f.resourceType) == [] || f.quantity == [] || f.deliveryDate == []
    ensures r == None ==> f.resourceType != [] && f.quantity != [] && f.deliveryDate != []
    ensures r == None ==> ParseInt(f.quantity).None? || ParseInt(f.quantity).value >= 1
    ensures r == None ==> date(f.deliveryDate).None? || date(f.deliveryDate).value >= midnight
  {
    if Trim(f.resourceType) == [] || f.quantity == [] || f.deliveryDate == [] then Some(FieldsMissing)
    else if ParseInt(f.quantity).Some? && ParseInt(f.quantity).value <= 0 then Some(QuantityNotPositive)
    else if date(f.deliveryDate).Some? && date(f.deliveryDate).value < midnight then Some(DateInPast)
    else None
  }

  /** `JSON.stringify(formData)` as the backend reads it: the three fields
      as typed, not trimmed. */
  function Posted(f: Form): Body {
    map["resourceType" := Str(f.resourceType), "quantity" := Str(f.quantity), "deliveryDate" := Str(f.deliveryDate)]
  }

  /** A delivery today is allowed; yesterday is not. */
  lemma TodayAllowed(f: Form, date: string -> Option<int>, midnight: int)
    requires Trim(f.resourceType) != [] && f.quantity == "2" && f.deliveryDate != []
    ensures date(f.deliveryDate) == Some(midnight) ==> Check(f, date, midnight) == None
    ensures date(f.deliveryDate) == Some(midnight - 1) ==> Check(f, date, midnight) == Some(DateInPast)
  {
    assert f.quantity == IntToString(2);
    ParseIntOfIntToString(2);
  }

  /** A form that passes its checks also passes the backend's presence
      check, and when its quantity and date parse, the backend stores the
      resource, with the type trimmed and the quantity parsed. */
  lemma CheckedFormAccepted(f: Form, date: string -> Option<int>, midnight: int,
                            user: string, dateOf: JsValue -> Option<int>, now: int)
    requires Check(f, date, midnight) == None
    requires user != [] && ParseInt(f.quantity).Some? && dateOf(Str(f.deliveryDate)).Some?
    ensures Truthy(Field(Posted(f), "resourceType")) && Truthy(Field(Posted(f), "quantity"))
    ensures Truthy(Field(Posted(f), "deliveryDate"))
    ensures var r := Participation.OfferedResource(user, Posted(f), dateOf, now);
      r.Some? && r.value.resourceType == Trim(f.resourceType) && r.value.quantity == ParseInt(f.quantity).value
  {
    var b := Posted(f);
    assert Field(b, "resourceType") == Str(f.resourceType);
    assert Field(b, "quantity") == Str(f.quantity);
    assert Field(b, "deliveryDate") == Str(f.deliveryDate);
  }

  /** `parseInt("many")` is `NaN`, whether given the text or the value. */
  lemma ManyIsNaN()
    ensures ParseInt("many").None? && ParseIntValue(Str("many")).None?
  {
    var q := "many";
    assert TrimStart(q) == q;
    assert !HasHexPrefix(q) && q[0] != '-' && q[0] != '+';
    assert !IsRadixDigit(q[0], 10);
    assert DigitRun(q, 10) == 0;
    assert ToJsString(Str(q)) == q;
  }

  /** A quantity that is not a number passes the form's check and then
      fails at the backend, which answers with a server error. */
  lemma UnparsableQuantityPasses(f: Form, date: string -> Option<int>, midnight: int,
                                 user: string, dateOf: JsValue -> Option<int>, now: int)
    requires Trim(f.resourceType) != [] && f.deliveryDate != [] && f.quantity == "many"
    requires date(f.deliveryDate).None? || date(f.deliveryDate).value >= midnight
    ensures Check(f, date, midnight) == None
    ensures Participation.OfferedResource(user, Posted(f), dateOf, now).None?
  {
    ManyIsNaN();
    assert Field(Posted(f), "quantity") == Str(f.quantity);
  }

  /** The modal's state: the message shown and the bodies posted so far. */
  class ResourceModal {
    var error: Option<string>
    var posted: seq<Body>

    constructor ()
      ensures error == None && posted == []
    {
      error := None;
      posted := [];
    }

    /** `handleSubmit`: a failed check shows its message and posts nothing;
        otherwise the body is posted. */
    method Submit(f: Form, date: string -> Option<int>, midnight: int)
      modifies this
      ensures error == Check(f, date, midnight)
      ensures error.Some? ==> posted == old(posted)
      ensures error.None? ==> posted == old(posted) + [Posted(f)]
    {
      error := None;
      var check := Check(f, date, midnight);
      if check.Some? {
        error := check;
        return;
      }
      posted := posted + [Posted(f)];
    }
  }
}
