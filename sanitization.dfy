/** The sanitising middleware of backend/middleware/sanitization.js. Each
    one rewrites fields of `req.body` in place: a truthy listed field is
    trimmed (and e-mails lower-cased), `skills` elements are trimmed, and
    `sdgs` is turned into an array. Calling `.trim()` on a truthy value that
    is not a string throws a TypeError; the writes made before it stay, and
    the request then goes to the error handler instead of `next()`. */
module Sanitization {
  import opened Wrappers
  import opened Text
  import opened JsValues
  import opened Json
  import opened Validation

  /** The body after a run, and whether the run got through without throwing. */
  datatype Run = Run(body: Body, ok: bool)

  /** `s.trim()`, or `s.trim().toLowerCase()` for the lower-cased fields. */
  function Normalise(s: string, lower: bool): string {
    if lower then ToLower(Trim(s)) else Trim(s)
  }

  /** `.trim()` on the value throws: it is truthy and not a string. */
  predicate Throws(v: JsValue) {
    Truthy(v) && !v.Str?
  }

  /** The value a listed field holds once its statement has run. */
  function Normalised(v: JsValue, lower: bool): JsValue {
    if Truthy(v) && v.Str? then Str(Normalise(v.s, lower)) else v
  }

  /** `if (req.body.key) req.body.key = req.body.key.trim()`. */
  function TrimOne(b: Body, key: string, lower: bool): (r: Run)
    ensures r.body.Keys == b.Keys
    ensures forall k | k != key :: Field(r.body, k) == Field(b, k)
    ensures r.ok <==> !Throws(Field(b, key))
    ensures Field(r.body, key) == Normalised(Field(b, key), lower)
  {
    var v := Field(b, key);
    if !Truthy(v) then Run(b, true)
    else if v.Str? then Run(b[key := Str(Normalise(v.s, lower))], true)
    else Run(b, false)
  }

  /** The next field statement, unless an earlier one has thrown. */
  function Then(r: Run, key: string, lower: bool): Run {
    if r.ok then TrimOne(r.body, key, lower) else r
  }

  /** The listed fields in order, stopping at the first that throws. */
  function TrimAll(r: Run, keys: seq<string>, lowered: set<string>): Run
    decreases |keys|
  {
    if keys == [] then r else TrimAll(Then(r, keys[0], keys[0] in lowered), keys[1..], lowered)
  }

  /** `if (Array.isArray(skills)) skills = skills.map(s => s.trim())`; the map
      throws at an element that is not a string, before the assignment. */
  function TrimSkills(r: Run): Run {
    var v := Field(r.body, "skills");
    if !r.ok || !v.Arr? then r
    else if forall i | 0 <= i < |v.items| :: v.items[i].Str? then
      Run(r.body["skills" := Arr(TrimmedItems(v.items))], true)
    else Run(r.body, false)
  }

  function TrimmedItems(items: seq<JsValue>): (t: seq<JsValue>)
    requires forall i | 0 <= i < |items| :: items[i].Str?
    ensures |t| == |items|
    ensures forall i | 0 <= i < |items| :: t[i] == Str(Trim(items[i].s))
  {
    seq(|items|, i requires 0 <= i < |items| => Str(Trim(items[i].s)))
  }

  /** The sdgs step of sanitizeProjectInput: a truthy string is replaced by
      `JSON.parse` of it, or by `[]` when that throws; then anything that is
      not an array becomes `[]`. */
  function FixSdgs(r: Run): Run {
    if !r.ok then r else Run(SettleSdgs(ParseSdgs(r.body)), true)
  }

  /** The first statement of the sdgs step: a truthy string is parsed. */
  function ParseSdgs(b: Body): Body {
    var v := Field(b, "sdgs");
    if Truthy(v) && v.Str? then
      match Parse(v.s)
      case Some(p) => b["sdgs" := p]
      case None => b["sdgs" := Arr([])]
    else b
  }

  /** The second statement: whatever is not an array becomes `[]`. */
  function SettleSdgs(b: Body): Body {
    if Field(b, "sdgs").Arr? then b else b["sdgs" := Arr([])]
  }

  const UserFields := ["name", "email", "phone", "gender", "organization", "bio", "country", "city", "exactLocation"]
  const ProjectFields := ["type", "title", "country", "city", "exactLocation", "sponsors", "organizers",
                          "briefInfo", "resourcesRequired", "otherInfo"]
  const OfferFields := ["category", "donorName", "contact", "itemType", "description", "logistics",
                        "pickupLocation", "contactPerson", "skill", "method", "experience"]
  const DonationFields := ["name", "email", "phone"]
  const Lowered := {"email"}

  function SanitizeUser(b: Body): Run {
    TrimSkills(TrimAll(Run(b, true), UserFields, Lowered))
  }

  function SanitizeProject(b: Body): Run {
    FixSdgs(TrimAll(Run(b, true), ProjectFields, {}))
  }

  function SanitizeOffer(b: Body): Run {
    TrimAll(Run(b, true), OfferFields, {})
  }

  function SanitizeDonation(b: Body): Run {
    TrimAll(Run(b, true), DonationFields, Lowered)
  }

  /** The field statements of sanitizeUserInput, in source order. */
  function UserChain(b: Body): Run {
    Then(Then(Then(Then(Then(Then(Then(Then(Then(Run(b, true), "name", false), "email", true), "phone", false), "gender", false), "organization", false), "bio", false), "country", false), "city", false), "exactLocation", false)
  }

  /** The field statements of sanitizeProjectInput, in source order. */
  function ProjectChain(b: Body): Run {
    Then(Then(Then(Then(Then(Then(Then(Then(Then(Then(Run(b, true), "type", false), "title", false), "country", false), "city", false), "exactLocation", false), "sponsors", false), "organizers", false), "briefInfo", false), "resourcesRequired", false), "otherInfo", false)
  }

  /** The field statements of sanitizeOfferInput, in source order. */
  function OfferChain(b: Body): Run {
    Then(Then(Then(Then(Then(Then(Then(Then(Then(Then(Then(Run(b, true), "category", false), "donorName", false), "contact", false), "itemType", false), "description", false), "logistics", false), "pickupLocation", false), "contactPerson", false), "skill", false), "method", false), "experience", false)
  }

  /** The field statements of sanitizeDonationInput, in source order. */
  function DonationChain(b: Body): Run {
    Then(Then(Then(Run(b, true), "name", false), "email", true), "phone", false)
  }


  // ----- what a list of field statements does -----

  predicate Distinct(keys: seq<string>) {
    forall i, j | 0 <= i < j < |keys| :: keys[i] != keys[j]
  }

  /** Two bodies with the same keys and the same value under each are equal. */
  lemma {:induction false} BodyExt(a: Body, b: Body)
    requires a.Keys == b.Keys
    requires forall k | k in a :: Field(a, k) == Field(b, k)
    ensures a == b
  {
    forall k | k in a ensures a[k] == b[k] {
      assert Field(a, k) == Field(b, k);
    }
  }

  /** Once a statement has thrown, the later ones do not run. */
  lemma {:induction false} TrimAllStops(r: Run, keys: seq<string>, lowered: set<string>)
    requires !r.ok
    ensures TrimAll(r, keys, lowered) == r
    decreases |keys|
  {
    if keys != [] {
      TrimAllStops(r, keys[1..], lowered);
    }
  }

  /** Running the statements for distinct fields: the set of keys stays the
      same, an unlisted field is never touched, the run gets through exactly
      when no listed field throws, and then every listed field holds its
      normalised value; after a throw each listed field holds its old value
      or its normalised one. */
  lemma {:induction false} TrimAllEffect(b: Body, keys: seq<string>, lowered: set<string>)
    requires Distinct(keys)
    ensures var r := TrimAll(Run(b, true), keys, lowered);
      && r.body.Keys == b.Keys
      && (forall k | k !in keys :: Field(r.body, k) == Field(b, k))
      && (r.ok <==> forall k | k in keys :: !Throws(Field(b, k)))
      && (r.ok ==> forall k | k in keys :: Field(r.body, k) == Normalised(Field(b, k), k in lowered))
      && (forall k | k in keys ::
            Field(r.body, k) == Field(b, k) || Field(r.body, k) == Normalised(Field(b, k), k in lowered))
    decreases |keys|
  {
    if keys != [] {
      var k0, rest := keys[0], keys[1..];
      var one := TrimOne(b, k0, k0 in lowered);
      assert Then(Run(b, true), k0, k0 in lowered) == one;
      assert forall k | k in rest :: k != k0 by {
        forall k | k in rest ensures k != k0 {
          var j :| 0 <= j < |rest| && rest[j] == k;
          assert keys[j + 1] == k;
        }
      }
      assert forall k | k in keys :: k == k0 || k in rest by {
        forall k | k in keys ensures k == k0 || k in rest {
          var j :| 0 <= j < |keys| && keys[j] == k;
          if j > 0 {
            assert rest[j - 1] == k;
          }
        }
      }
      if one.ok {
        assert Distinct(rest) by {
          forall i, j | 0 <= i < j < |rest| ensures rest[i] != rest[j] {
            assert rest[i] == keys[i + 1] && rest[j] == keys[j + 1];
          }
        }
        TrimAllEffect(one.body, rest, lowered);
      } else {
        TrimAllStops(one, rest, lowered);
      }
    }
  }

  /** Normalising a value a second time changes nothing. */
  lemma NormalisedIdempotent(v: JsValue, lower: bool)
    ensures Normalised(Normalised(v, lower), lower) == Normalised(v, lower)
    ensures !Throws(Normalised(v, lower)) <==> !Throws(v)
  {
    if Truthy(v) && v.Str? {
      var t := Trim(v.s);
      TrimIdempotent(v.s);
      if lower {
        TrimLowerCommute(t);
        ToLowerIdempotent(t);
      }
    }
  }

  /** A statement applied to a field that already holds its normalised value
      leaves the body as it is. */
  lemma TrimOneSettled(b: Body, key: string, lower: bool)
    requires key in b ==> b[key] == Normalised(b[key], lower) && !Throws(b[key])
    ensures TrimOne(b, key, lower) == Run(b, true)
  {
    var v := Field(b, key);
    if Truthy(v) && v.Str? {
      assert v == Normalised(v, lower);
      assert b[key := Str(Normalise(v.s, lower))] == b;
    }
  }

  /** Running the same statements again on their own result gives that
      result back, whether or not the first run threw. */
  lemma {:induction false} TrimAllIdempotent(b: Body, keys: seq<string>, lowered: set<string>)
    requires Distinct(keys)
    ensures var r := TrimAll(Run(b, true), keys, lowered);
      TrimAll(Run(r.body, true), keys, lowered) == r
    decreases |keys|
  {
    var r := TrimAll(Run(b, true), keys, lowered);
    if keys != [] {
      var k0, rest := keys[0], keys[1..];
      var lower := k0 in lowered;
      var one := TrimOne(b, k0, lower);
      assert Then(Run(b, true), k0, lower) == one;
      assert Distinct(rest) by {
        forall i, j | 0 <= i < j < |rest| ensures rest[i] != rest[j] {
          assert rest[i] == keys[i + 1] && rest[j] == keys[j + 1];
        }
      }
      assert forall j | 0 <= j < |rest| :: rest[j] == keys[j + 1] != k0;
      if one.ok {
        TrimAllIdempotent(one.body, rest, lowered);
        TrimAllEffect(one.body, rest, lowered);
        NormalisedIdempotent(Field(b, k0), lower);
        TrimOneSettled(r.body, k0, lower);
        assert Then(Run(r.body, true), k0, lower) == Run(r.body, true);
      } else {
        TrimAllStops(one, rest, lowered);
        assert r == Run(b, false);
        assert TrimOne(b, k0, lower) == Run(b, false);
        assert Then(Run(r.body, true), k0, lower) == Run(b, false);
        TrimAllStops(Run(b, false), rest, lowered);
      }
    }
  }

  /** Writing a field that is not listed commutes with the statements. */
  lemma {:induction false} TrimAllUpdate(b: Body, keys: seq<string>, lowered: set<string>, x: string, v: JsValue)
    requires x !in keys
    ensures var r := TrimAll(Run(b, true), keys, lowered);
      TrimAll(Run(b[x := v], true), keys, lowered) == Run(r.body[x := v], r.ok)
    decreases |keys|
  {
    if keys != [] {
      var k0, rest := keys[0], keys[1..];
      var lower := k0 in lowered;
      var one, two := TrimOne(b, k0, lower), TrimOne(b[x := v], k0, lower);
      assert Then(Run(b, true), k0, lower) == one;
      assert Then(Run(b[x := v], true), k0, lower) == two;
      assert Field(b[x := v], k0) == Field(b, k0);
      assert x !in rest;
      assert two.body == one.body[x := v];
      if one.ok {
        TrimAllUpdate(one.body, rest, lowered, x, v);
      } else {
        TrimAllStops(one, rest, lowered);
        TrimAllStops(two, rest, lowered);
      }
    }
  }

  // ----- the four sanitisers -----

  /** The statement chains are the field lists run in order. */
  lemma UserChainIsTrimAll(b: Body)
    ensures UserChain(b) == TrimAll(Run(b, true), UserFields, Lowered)
  {
    var r := Run(b, true);
    UserChainHead(r);
    UserChainTail(Then(Then(Then(Then(Then(r, "name", false), "email", true), "phone", false), "gender", false), "organization", false));
  }

  /** The first five user fields. */
  lemma UserChainHead(r: Run)
    ensures TrimAll(r, UserFields, Lowered)
      == TrimAll(Then(Then(Then(Then(Then(r, "name", false), "email", true), "phone", false), "gender", false), "organization", false),
                 ["bio", "country", "city", "exactLocation"], Lowered)
  {
    assert TrimAll(r, ["name", "email", "phone", "gender", "organization", "bio", "country", "city", "exactLocation"], Lowered) == TrimAll(Then(r, "name", false), ["email", "phone", "gender", "organization", "bio", "country", "city", "exactLocation"], Lowered);
    var r := Then(r, "name", false);
    assert TrimAll(r, ["email", "phone", "gender", "organization", "bio", "country", "city", "exactLocation"], Lowered) == TrimAll(Then(r, "email", true), ["phone", "gender", "organization", "bio", "country", "city", "exactLocation"], Lowered);
    r := Then(r, "email", true);
    assert TrimAll(r, ["phone", "gender", "organization", "bio", "country", "city", "exactLocation"], Lowered) == TrimAll(Then(r, "phone", false), ["gender", "organization", "bio", "country", "city", "exactLocation"], Lowered);
    r := Then(r, "phone", false);
    assert TrimAll(r, ["gender", "organization", "bio", "country", "city", "exactLocation"], Lowered) == TrimAll(Then(r, "gender", false), ["organization", "bio", "country", "city", "exactLocation"], Lowered);
    r := Then(r, "gender", false);
    assert TrimAll(r, ["organization", "bio", "country", "city", "exactLocation"], Lowered) == TrimAll(Then(r, "organization", false), ["bio", "country", "city", "exactLocation"], Lowered);
  }

  /** The last four user fields. */
  lemma UserChainTail(r: Run)
    ensures TrimAll(r, ["bio", "country", "city", "exactLocation"], Lowered)
      == Then(Then(Then(Then(r, "bio", false), "country", false), "city", false), "exactLocation", false)
  {
    assert TrimAll(r, ["bio", "country", "city", "exactLocation"], Lowered) == TrimAll(Then(r, "bio", false), ["country", "city", "exactLocation"], Lowered);
    var r := Then(r, "bio", false);
    assert TrimAll(r, ["country", "city", "exactLocation"], Lowered) == TrimAll(Then(r, "country", false), ["city", "exactLocation"], Lowered);
    r := Then(r, "country", false);
    assert TrimAll(r, ["city", "exactLocation"], Lowered) == TrimAll(Then(r, "city", false), ["exactLocation"], Lowered);
    r := Then(r, "city", false);
    assert TrimAll(r, ["exactLocation"], Lowered) == TrimAll(Then(r, "exactLocation", false), [], Lowered);
  }

  lemma ProjectChainIsTrimAll(b: Body)
    ensures ProjectChain(b) == TrimAll(Run(b, true), ProjectFields, {})
  {
    var r := Run(b, true);
    assert TrimAll(r, ["type", "title", "country", "city", "exactLocation", "sponsors", "organizers", "briefInfo", "resourcesRequired", "otherInfo"], {}) == TrimAll(Then(r, "type", false), ["title", "country", "city", "exactLocation", "sponsors", "organizers", "briefInfo", "resourcesRequired", "otherInfo"], {});
    r := Then(r, "type", false);
    assert TrimAll(r, ["title", "country", "city", "exactLocation", "sponsors", "organizers", "briefInfo", "resourcesRequired", "otherInfo"], {}) == TrimAll(Then(r, "title", false), ["country", "city", "exactLocation", "sponsors", "organizers", "briefInfo", "resourcesRequired", "otherInfo"], {});
    r := Then(r, "title", false);
    assert TrimAll(r, ["country", "city", "exactLocation", "sponsors", "organizers", "briefInfo", "resourcesRequired", "otherInfo"], {}) == TrimAll(Then(r, "country", false), ["city", "exactLocation", "sponsors", "organizers", "briefInfo", "resourcesRequired", "otherInfo"], {});
    r := Then(r, "country", false);
    assert TrimAll(r, ["city", "exactLocation", "sponsors", "organizers", "briefInfo", "resourcesRequired", "otherInfo"], {}) == TrimAll(Then(r, "city", false), ["exactLocation", "sponsors", "organizers", "briefInfo", "resourcesRequired", "otherInfo"], {});
    r := Then(r, "city", false);
    assert TrimAll(r, ["exactLocation", "sponsors", "organizers", "briefInfo", "resourcesRequired", "otherInfo"], {}) == TrimAll(Then(r, "exactLocation", false), ["sponsors", "organizers", "briefInfo", "resourcesRequired", "otherInfo"], {});
    r := Then(r, "exactLocation", false);
    assert TrimAll(r, ["sponsors", "organizers", "briefInfo", "resourcesRequired", "otherInfo"], {}) == TrimAll(Then(r, "sponsors", false), ["organizers", "briefInfo", "resourcesRequired", "otherInfo"], {});
    r := Then(r, "sponsors", false);
    assert TrimAll(r, ["organizers", "briefInfo", "resourcesRequired", "otherInfo"], {}) == TrimAll(Then(r, "organizers", false), ["briefInfo", "resourcesRequired", "otherInfo"], {});
    r := Then(r, "organizers", false);
    assert TrimAll(r, ["briefInfo", "resourcesRequired", "otherInfo"], {}) == TrimAll(Then(r, "briefInfo", false), ["resourcesRequired", "otherInfo"], {});
    r := Then(r, "briefInfo", false);
    assert TrimAll(r, ["resourcesRequired", "otherInfo"], {}) == TrimAll(Then(r, "resourcesRequired", false), ["otherInfo"], {});
    r := Then(r, "resourcesRequired", false);
    assert TrimAll(r, ["otherInfo"], {}) == TrimAll(Then(r, "otherInfo", false), [], {});
    r := Then(r, "otherInfo", false);
  }

  lemma OfferChainIsTrimAll(b: Body)
    ensures OfferChain(b) == TrimAll(Run(b, true), OfferFields, {})
  {
    var r := Run(b, true);
    assert TrimAll(r, ["category", "donorName", "contact", "itemType", "description", "logistics", "pickupLocation", "contactPerson", "skill", "method", "experience"], {}) == TrimAll(Then(r, "category", false), ["donorName", "contact", "itemType", "description", "logistics", "pickupLocation", "contactPerson", "skill", "method", "experience"], {});
    r := Then(r, "category", false);
    assert TrimAll(r, ["donorName", "contact", "itemType", "description", "logistics", "pickupLocation", "contactPerson", "skill", "method", "experience"], {}) == TrimAll(Then(r, "donorName", false), ["contact", "itemType", "description", "logistics", "pickupLocation", "contactPerson", "skill", "method", "experience"], {});
    r := Then(r, "donorName", false);
    assert TrimAll(r, ["contact", "itemType", "description", "logistics", "pickupLocation", "contactPerson", "skill", "method", "experience"], {}) == TrimAll(Then(r, "contact", false), ["itemType", "description", "logistics", "pickupLocation", "contactPerson", "skill", "method", "experience"], {});
    r := Then(r, "contact", false);
    assert TrimAll(r, ["itemType", "description", "logistics", "pickupLocation", "contactPerson", "skill", "method", "experience"], {}) == TrimAll(Then(r, "itemType", false), ["description", "logistics", "pickupLocation", "contactPerson", "skill", "method", "experience"], {});
    r := Then(r, "itemType", false);
    assert TrimAll(r, ["description", "logistics", "pickupLocation", "contactPerson", "skill", "method", "experience"], {}) == TrimAll(Then(r, "description", false), ["logistics", "pickupLocation", "contactPerson", "skill", "method", "experience"], {});
    r := Then(r, "description", false);
    assert TrimAll(r, ["logistics", "pickupLocation", "contactPerson", "skill", "method", "experience"], {}) == TrimAll(Then(r, "logistics", false), ["pickupLocation", "contactPerson", "skill", "method", "experience"], {});
    r := Then(r, "logistics", false);
    assert TrimAll(r, ["pickupLocation", "contactPerson", "skill", "method", "experience"], {}) == TrimAll(Then(r, "pickupLocation", false), ["contactPerson", "skill", "method", "experience"], {});
    r := Then(r, "pickupLocation", false);
    assert TrimAll(r, ["contactPerson", "skill", "method", "experience"], {}) == TrimAll(Then(r, "contactPerson", false), ["skill", "method", "experience"], {});
    r := Then(r, "contactPerson", false);
    assert TrimAll(r, ["skill", "method", "experience"], {}) == TrimAll(Then(r, "skill", false), ["method", "experience"], {});
    r := Then(r, "skill", false);
    assert TrimAll(r, ["method", "experience"], {}) == TrimAll(Then(r, "method", false), ["experience"], {});
    r := Then(r, "method", false);
    assert TrimAll(r, ["experience"], {}) == TrimAll(Then(r, "experience", false), [], {});
    r := Then(r, "experience", false);
  }

  lemma DonationChainIsTrimAll(b: Body)
    ensures DonationChain(b) == TrimAll(Run(b, true), DonationFields, Lowered)
  {
    var r := Run(b, true);
    assert TrimAll(r, ["name", "email", "phone"], Lowered) == TrimAll(Then(r, "name", false), ["email", "phone"], Lowered);
    r := Then(r, "name", false);
    assert TrimAll(r, ["email", "phone"], Lowered) == TrimAll(Then(r, "email", true), ["phone"], Lowered);
    r := Then(r, "email", true);
    assert TrimAll(r, ["phone"], Lowered) == TrimAll(Then(r, "phone", false), [], Lowered);
    r := Then(r, "phone", false);
  }

  lemma OfferPassThrough() ensures "quantity" !in OfferFields && "timeCommitment" !in OfferFields { }
  lemma SkillsUnlisted() ensures "skills" !in UserFields { }
  lemma SdgsUnlisted() ensures "sdgs" !in ProjectFields { }
  lemma UserFieldsDistinct() ensures Distinct(UserFields) { }
  lemma ProjectFieldsDistinct() ensures Distinct(ProjectFields) { }
  lemma OfferFieldsDistinct() ensures Distinct(OfferFields) { }
  lemma DonationFieldsDistinct() ensures Distinct(DonationFields) { }

  /** The `skills` step alone: only `skills` can change, an array of
      strings has each element trimmed in place, and it throws exactly when
      `skills` is an array holding a non-string. */
  lemma TrimSkillsEffect(r: Run)
    ensures var t := TrimSkills(r);
      var v := Field(r.body, "skills");
      && t.body.Keys == r.body.Keys
      && (forall k | k != "skills" :: Field(t.body, k) == Field(r.body, k))
      && (t.ok <==> r.ok && (v.Arr? ==> forall i | 0 <= i < |v.items| :: v.items[i].Str?))
      && (!t.ok ==> t.body == r.body)
      && (!v.Arr? ==> t == r)
      && (t.ok && v.Arr? ==>
            var u := Field(t.body, "skills");
            && u.Arr? && |u.items| == |v.items|
            && forall i | 0 <= i < |u.items| :: u.items[i] == Str(Trim(v.items[i].s)))
  {
  }

  /** sanitizeUserInput: the nine listed fields are trimmed, the e-mail also
      lower-cased, every element of an array `skills` trimmed with its length
      and order kept; no other field is touched and no field is added. It
      gets through exactly when no listed field and no `skills` element is a
      truthy non-string. */
  lemma SanitizeUserEffect(b: Body)
    ensures var r := SanitizeUser(b);
      var skills := Field(b, "skills");
      && r.body.Keys == b.Keys
      && (forall k | k !in UserFields && k != "skills" :: Field(r.body, k) == Field(b, k))
      && (r.ok <==>
            (forall k | k in UserFields :: !Throws(Field(b, k)))
            && (skills.Arr? ==> forall i | 0 <= i < |skills.items| :: skills.items[i].Str?))
      && (r.ok ==> forall k | k in UserFields :: Field(r.body, k) == Normalised(Field(b, k), k in Lowered))
      && (r.ok && skills.Arr? ==>
            var t := Field(r.body, "skills");
            && t.Arr? && |t.items| == |skills.items|
            && forall i | 0 <= i < |t.items| :: t.items[i] == Str(Trim(skills.items[i].s)))
      && (!skills.Arr? ==> Field(r.body, "skills") == skills)
  {
    var c := TrimAll(Run(b, true), UserFields, Lowered);
    UserFieldsDistinct();
    SkillsUnlisted();
    TrimAllEffect(b, UserFields, Lowered);
    assert Field(c.body, "skills") == Field(b, "skills");
    TrimSkillsEffect(c);
  }

  /** The `skills` step run again on its own successful result changes nothing. */
  lemma TrimSkillsSettled(r: Run)
    requires TrimSkills(r).ok
    ensures TrimSkills(TrimSkills(r)) == TrimSkills(r)
  {
    var v := Field(r.body, "skills");
    if v.Arr? {
      var t := TrimmedItems(v.items);
      forall i | 0 <= i < |t| ensures Trim(t[i].s) == t[i].s {
        TrimIdempotent(v.items[i].s);
      }
      assert TrimmedItems(t) == t;
      var body := r.body["skills" := Arr(t)];
      assert body["skills" := Arr(t)] == body;
    }
  }

  /** Running sanitizeUserInput again on its own result changes nothing. */
  lemma SanitizeUserIdempotent(b: Body)
    ensures SanitizeUser(SanitizeUser(b).body) == SanitizeUser(b)
  {
    var c := TrimAll(Run(b, true), UserFields, Lowered);
    var r := TrimSkills(c);
    assert TrimAll(Run(c.body, true), UserFields, Lowered) == c by {
      UserFieldsDistinct();
      TrimAllIdempotent(b, UserFields, Lowered);
    }
    TrimSkillsEffect(c);
    if r.ok && Field(c.body, "skills").Arr? {
      SkillsStepSettled(c);
    } else {
      assert r.body == c.body;
    }
  }

  /** Once the fields are trimmed and settled, trimming the skills leaves a
      body that both steps then keep as it is. */
  lemma SkillsStepSettled(c: Run)
    requires TrimAll(Run(c.body, true), UserFields, Lowered) == c
    requires TrimSkills(c).ok && Field(c.body, "skills").Arr?
    ensures SanitizeUser(TrimSkills(c).body) == TrimSkills(c)
  {
    var r := TrimSkills(c);
    TrimSkillsEffect(c);
    assert r.body == c.body["skills" := Field(r.body, "skills")];
    assert TrimAll(Run(r.body, true), UserFields, Lowered) == r by {
      SkillsUnlisted();
      TrimAllUpdate(c.body, UserFields, Lowered, "skills", Field(r.body, "skills"));
    }
    TrimSkillsSettled(c);
  }

  /** The `sdgs` step alone, after the field statements got through: only
      `sdgs` changes, and it ends up an array: an array is kept, a string
      holding a JSON array becomes that array, anything else becomes `[]`. */
  lemma FixSdgsEffect(r: Run)
    requires r.ok
    ensures var t := FixSdgs(r);
      var v := Field(r.body, "sdgs");
      && t.ok
      && t.body == r.body["sdgs" := Field(t.body, "sdgs")]
      && t.body.Keys == r.body.Keys + {"sdgs"}
      && (forall k | k != "sdgs" :: Field(t.body, k) == Field(r.body, k))
      && Field(t.body, "sdgs") ==
           if v.Arr? then v
           else if v.Str? && Parse(v.s).Some? && Parse(v.s).value.Arr? then Parse(v.s).value
           else Arr([])
  {
    var v := Field(r.body, "sdgs");
    var w := if v.Arr? then v
             else if v.Str? && Parse(v.s).Some? && Parse(v.s).value.Arr? then Parse(v.s).value
             else Arr([]);
    FixSdgsBody(r, v, w);
    UpdateField(r.body, "sdgs", w);
  }

  /** A string holding a JSON array becomes that array. */
  lemma FixParsedSdgs(r: Run, s: string, a: JsValue)
    requires r.ok && Field(r.body, "sdgs") == Str(s) && Parse(s) == Some(a) && a.Arr?
    ensures FixSdgs(r).ok && Field(FixSdgs(r).body, "sdgs") == a
  {
    FixSdgsEffect(r);
  }

  /** The body the `sdgs` step leaves: the stored body with `sdgs` set to
      its final array. */
  lemma FixSdgsBody(r: Run, v: JsValue, w: JsValue)
    requires r.ok && v == Field(r.body, "sdgs")
    requires w == if v.Arr? then v
                  else if v.Str? && Parse(v.s).Some? && Parse(v.s).value.Arr? then Parse(v.s).value
                  else Arr([])
    ensures FixSdgs(r) == Run(r.body["sdgs" := w], true)
  {
    if v.Arr? {
      assert "sdgs" in r.body;
      assert r.body["sdgs" := v] == r.body;
    } else if v.Str? && v.s != [] {
      FixSdgsOfText(r, v.s, Parse(v.s));
    } else {
      if v.Str? {
        EmptyTextUnparsed(v.s);
      }
      assert w == Arr([]);
    }
  }

  /** The `sdgs` step on a non-empty string, whatever it parses to. */
  lemma FixSdgsOfText(r: Run, s: string, p: Option<JsValue>)
    requires r.ok && Field(r.body, "sdgs") == Str(s) && s != [] && p == Parse(s)
    ensures FixSdgs(r) == Run(r.body["sdgs" := if p.Some? && p.value.Arr? then p.value else Arr([])], true)
  {
    if p.None? {
      FixSdgsUnparsed(r, s);
    } else if p.value.Arr? {
      FixSdgsParsedArray(r, s, p.value);
    } else {
      FixSdgsParsedOther(r, s, p.value);
    }
  }

  /** Text that does not parse leaves `[]`. */
  lemma FixSdgsUnparsed(r: Run, s: string)
    requires r.ok && Field(r.body, "sdgs") == Str(s) && s != [] && Parse(s) == None
    ensures FixSdgs(r) == Run(r.body["sdgs" := Arr([])], true)
  {
    var b1 := r.body["sdgs" := Arr([])];
    assert ParseSdgs(r.body) == b1 by {
      assert Truthy(Field(r.body, "sdgs"));
    }
    assert SettleSdgs(b1) == b1 by {
      assert Field(b1, "sdgs") == Arr([]);
    }
  }

  /** Text holding an array leaves that array. */
  lemma FixSdgsParsedArray(r: Run, s: string, a: JsValue)
    requires r.ok && Field(r.body, "sdgs") == Str(s) && s != [] && Parse(s) == Some(a) && a.Arr?
    ensures FixSdgs(r) == Run(r.body["sdgs" := a], true)
  {
    var b1 := r.body["sdgs" := a];
    assert ParseSdgs(r.body) == b1 by {
      assert Truthy(Field(r.body, "sdgs"));
    }
    assert SettleSdgs(b1) == b1 by {
      assert Field(b1, "sdgs") == a;
    }
  }

  /** Text holding anything but an array leaves `[]`. */
  lemma FixSdgsParsedOther(r: Run, s: string, a: JsValue)
    requires r.ok && Field(r.body, "sdgs") == Str(s) && s != [] && Parse(s) == Some(a) && !a.Arr?
    ensures FixSdgs(r) == Run(r.body["sdgs" := Arr([])], true)
  {
    assert ParseSdgs(r.body) == r.body["sdgs" := a] by {
      assert Truthy(Field(r.body, "sdgs"));
    }
    SettleOther(r.body, a);
  }

  /** Settling a body whose `sdgs` was set to a non-array value. */
  lemma SettleOther(b: Body, a: JsValue)
    requires !a.Arr?
    ensures SettleSdgs(b["sdgs" := a]) == b["sdgs" := Arr([])]
  {
    assert b["sdgs" := a]["sdgs" := Arr([])] == b["sdgs" := Arr([])];
  }

  /** The empty text holds no JSON value. */
  lemma EmptyTextUnparsed(s: string)
    requires s == []
    ensures Parse(s) == None
  {
    assert SkipSpace(s) == [];
  }

  /** Setting one field of a body: that field reads the new value, the
      others read as before, and the key is present. */
  lemma UpdateField(b: Body, key: string, w: JsValue)
    ensures b[key := w].Keys == b.Keys + {key}
    ensures Field(b[key := w], key) == w
    ensures forall k | k != key :: Field(b[key := w], k) == Field(b, k)
  {
  }

  /** sanitizeProjectInput: the ten listed fields are trimmed and nothing
      else is touched except `sdgs`, which afterwards is always an array: an
      array is kept, a string holding a JSON array becomes that array, and
      anything else becomes `[]`. */
  lemma SanitizeProjectEffect(b: Body)
    ensures var r := SanitizeProject(b);
      var sdgs := Field(b, "sdgs");
      && (r.ok ==> r.body.Keys == b.Keys + {"sdgs"})
      && (!r.ok ==> r.body.Keys == b.Keys)
      && (forall k | k !in ProjectFields && k != "sdgs" :: Field(r.body, k) == Field(b, k))
      && (r.ok <==> forall k | k in ProjectFields :: !Throws(Field(b, k)))
      && (r.ok ==> forall k | k in ProjectFields :: Field(r.body, k) == Normalised(Field(b, k), false))
      && (r.ok ==>
            Field(r.body, "sdgs") ==
              if sdgs.Arr? then sdgs
              else if sdgs.Str? && Parse(sdgs.s).Some? && Parse(sdgs.s).value.Arr? then Parse(sdgs.s).value
              else Arr([]))
  {
    var c := TrimAll(Run(b, true), ProjectFields, {});
    ProjectFieldsDistinct();
    SdgsUnlisted();
    TrimAllEffect(b, ProjectFields, {});
    assert Field(c.body, "sdgs") == Field(b, "sdgs");
    if c.ok {
      FixSdgsEffect(c);
    }
  }

  /** Running sanitizeProjectInput again on its own result changes nothing. */
  lemma SanitizeProjectIdempotent(b: Body)
    ensures SanitizeProject(SanitizeProject(b).body) == SanitizeProject(b)
  {
    var c := TrimAll(Run(b, true), ProjectFields, {});
    var r := FixSdgs(c);
    ProjectFieldsDistinct();
    SdgsUnlisted();
    TrimAllIdempotent(b, ProjectFields, {});
    if c.ok {
      FixSdgsEffect(c);
      var s := Field(r.body, "sdgs");
      TrimAllUpdate(c.body, ProjectFields, {}, "sdgs", s);
      assert r.body == c.body["sdgs" := s];
      assert TrimAll(Run(r.body, true), ProjectFields, {}) == r;
      FixSdgsEffect(r);
      assert FixSdgs(r).body == r.body;
    }
  }

  /** The project form sends its SDG names as `JSON.stringify(sdgs)`; the
      sanitiser turns that string back into the same array. */
  lemma SdgsRoundTrip(b: Body, names: seq<string>)
    ensures var r := SanitizeProject(b["sdgs" := Str(Stringify(Arr(Strs(names))))]);
      r.ok ==> Field(r.body, "sdgs") == Arr(Strs(names))
  {
    StrsAreJson(names);
    StringifyStart(Arr(Strs(names)));
    ParseStringifyStrings(names);
    SanitizeProjectEffect(b["sdgs" := Str(Stringify(Arr(Strs(names))))]);
  }

  /** After sanitizeProjectInput has got through, validateProjectCreation
      cannot throw: the title and brief are strings or falsy by then. */
  lemma SanitizedProjectNeverFaults(b: Body, parsesAsDate: string -> bool)
    ensures var r := SanitizeProject(b);
      r.ok ==> !ValidateProjectCreation(r.body, parsesAsDate).Fault?
  {
    var c := TrimAll(Run(b, true), ProjectFields, {});
    if c.ok {
      var r := FixSdgs(c);
      var title, brief := Field(b, "title"), Field(b, "briefInfo");
      ProjectFieldsDistinct();
      TrimAllEffect(b, ProjectFields, {});
      FixSdgsEffect(c);
      assert "title" in ProjectFields && "briefInfo" in ProjectFields;
      assert Field(r.body, "title") == Normalised(title, false);
      assert Field(r.body, "briefInfo") == Normalised(brief, false);
      NormalisedIdempotent(title, false);
      NormalisedIdempotent(brief, false);
      ProjectCreationVerdict(r.body, parsesAsDate);
    }
  }

  /** sanitizeOfferInput: the eleven listed fields are trimmed; `quantity`,
      `timeCommitment` and every other field pass through unchanged. */
  lemma SanitizeOfferEffect(b: Body)
    ensures var r := SanitizeOffer(b);
      && r.body.Keys == b.Keys
      && (forall k | k !in OfferFields :: Field(r.body, k) == Field(b, k))
      && Field(r.body, "quantity") == Field(b, "quantity")
      && Field(r.body, "timeCommitment") == Field(b, "timeCommitment")
      && (r.ok <==> forall k | k in OfferFields :: !Throws(Field(b, k)))
      && (r.ok ==> forall k | k in OfferFields :: Field(r.body, k) == Normalised(Field(b, k), false))
  {
    OfferFieldsDistinct();
    TrimAllEffect(b, OfferFields, {});
    OfferPassThrough();
  }

  lemma SanitizeOfferIdempotent(b: Body)
    ensures SanitizeOffer(SanitizeOffer(b).body) == SanitizeOffer(b)
  {
    OfferFieldsDistinct();
    TrimAllIdempotent(b, OfferFields, {});
  }

  /** sanitizeDonationInput: name and phone are trimmed, the e-mail trimmed
      and lower-cased; `amount`, `anonymous` and the rest are untouched. */
  lemma SanitizeDonationEffect(b: Body)
    ensures var r := SanitizeDonation(b);
      && r.body.Keys == b.Keys
      && (forall k | k !in DonationFields :: Field(r.body, k) == Field(b, k))
      && Field(r.body, "amount") == Field(b, "amount")
      && Field(r.body, "anonymous") == Field(b, "anonymous")
      && (r.ok <==> forall k | k in DonationFields :: !Throws(Field(b, k)))
      && (r.ok ==> forall k | k in DonationFields :: Field(r.body, k) == Normalised(Field(b, k), k == "email"))
  {
    DonationFieldsDistinct();
    TrimAllEffect(b, DonationFields, Lowered);
  }

  lemma SanitizeDonationIdempotent(b: Body)
    ensures SanitizeDonation(SanitizeDonation(b).body) == SanitizeDonation(b)
  {
    DonationFieldsDistinct();
    TrimAllIdempotent(b, DonationFields, Lowered);
  }

  /** The request whose body the middleware rewrites. */
  class Request {
    var body: Body

    constructor (b: Body)
      ensures body == b
    {
      body := b;
    }

    method TrimField(key: string, lower: bool) returns (ok: bool)
      modifies this
      ensures Run(body, ok) == TrimOne(old(body), key, lower)
    {
      var v := Field(body, key);
      ok := true;
      if Truthy(v) {
        if v.Str? {
          body := body[key := Str(Normalise(v.s, lower))];
        } else {
          ok := false;
        }
      }
    }

    method SanitizeUserInput() returns (ok: bool)
      modifies this
      ensures Run(body, ok) == SanitizeUser(old(body))
    {
      UserChainIsTrimAll(body);
      ok := TrimField("name", false);
      if !ok { return; }
      ok := TrimField("email", true);
      if !ok { return; }
      ok := TrimField("phone", false);
      if !ok { return; }
      ok := TrimField("gender", false);
      if !ok { return; }
      ok := TrimField("organization", false);
      if !ok { return; }
      ok := TrimField("bio", false);
      if !ok { return; }
      ok := TrimField("country", false);
      if !ok { return; }
      ok := TrimField("city", false);
      if !ok { return; }
      ok := TrimField("exactLocation", false);
      if !ok { return; }
      if Field(body, "skills").Arr? {
        var items := body["skills"].items;
        if forall i | 0 <= i < |items| :: items[i].Str? {
          body := body["skills" := Arr(TrimmedItems(items))];
        } else {
          ok := false;
        }
      }
    }

    method SanitizeProjectInput() returns (ok: bool)
      modifies this
      ensures Run(body, ok) == SanitizeProject(old(body))
    {
      ProjectChainIsTrimAll(body);
      ok := TrimField("type", false);
      if !ok { return; }
      ok := TrimField("title", false);
      if !ok { return; }
      ok := TrimField("country", false);
      if !ok { return; }
      ok := TrimField("city", false);
      if !ok { return; }
      ok := TrimField("exactLocation", false);
      if !ok { return; }
      ok := TrimField("sponsors", false);
      if !ok { return; }
      ok := TrimField("organizers", false);
      if !ok { return; }
      ok := TrimField("briefInfo", false);
      if !ok { return; }
      ok := TrimField("resourcesRequired", false);
      if !ok { return; }
      ok := TrimField("otherInfo", false);
      if !ok { return; }
      var v := Field(body, "sdgs");
      if Truthy(v) && v.Str? {
        match Parse(v.s)
        case Some(p) => body := body["sdgs" := p];
        case None => body := body["sdgs" := Arr([])];
      }
      if !Field(body, "sdgs").Arr? {
        body := body["sdgs" := Arr([])];
      }
    }

    method SanitizeOfferInput() returns (ok: bool)
      modifies this
      ensures Run(body, ok) == SanitizeOffer(old(body))
    {
      OfferChainIsTrimAll(body);
      ok := TrimField("category", false);
      if !ok { return; }
      ok := TrimField("donorName", false);
      if !ok { return; }
      ok := TrimField("contact", false);
      if !ok { return; }
      ok := TrimField("itemType", false);
      if !ok { return; }
      ok := TrimField("description", false);
      if !ok { return; }
      ok := TrimField("logistics", false);
      if !ok { return; }
      ok := TrimField("pickupLocation", false);
      if !ok { return; }
      ok := TrimField("contactPerson", false);
      if !ok { return; }
      ok := TrimField("skill", false);
      if !ok { return; }
      ok := TrimField("method", false);
      if !ok { return; }
      ok := TrimField("experience", false);
      if !ok { return; }
    }

    method SanitizeDonationInput() returns (ok: bool)
      modifies this
      ensures Run(body, ok) == SanitizeDonation(old(body))
    {
      DonationChainIsTrimAll(body);
      ok := TrimField("name", false);
      if !ok { return; }
      ok := TrimField("email", true);
      if !ok { return; }
      ok := TrimField("phone", false);
      if !ok { return; }
    }
  }
}
