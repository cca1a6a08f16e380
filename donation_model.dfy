/** The donation document of backend/models/Donation.js: its fields, the
    setters Mongoose applies on assignment (trim, lower-case), the casts it
    applies to a Boolean field, and the checks `save()` runs before it
    writes. */
module DonationModel {
  import opened Wrappers
  import opened Text
  import opened JsValues

  datatype Status = Pending | Completed | Failed

  /** The `enum` of `status`, as the strings a request can carry. */
  function StatusName(s: Status): string {
    match s
    case Pending => "pending"
    case Completed => "completed"
    case Failed => "failed"
  }

  /** `['pending', 'completed', 'failed'].includes(v)`: only those three
      strings are accepted, each naming its own status. */
  function StatusOf(v: JsValue): (r: Option<Status>)
    ensures r.Some? <==> v.Str? && v.s in {"pending", "completed", "failed"}
    ensures r.Some? ==> v == Str(StatusName(r.value))
  {
    if v == Str("pending") then Some(Pending)
    else if v == Str("completed") then Some(Completed)
    else if v == Str("failed") then Some(Failed)
    else None
  }

  datatype Donation = Donation(
    donationId: nat,
    user: Option<string>,
    name: Option<string>,
    phone: string,
    email: string,
    amount: int,
    anonymous: bool,
    status: Status,
    receipt: Option<string>,       // mpesaTransactionId
    paidAt: int,                   // transactionDate, in milliseconds
    checkoutRequestId: string,
    usedFor: string,               // donationUsedFor
    createdAt: int,
    updatedAt: int)

  /** What `save()` validates: `name` is required (a non-empty string)
      exactly when the donation is not anonymous, `phone` and `email` are
      required, and `amount` is at least 1. */
  predicate DonationOk(d: Donation) {
    && (!d.anonymous ==> d.name.Some? && d.name.value != [])
    && d.phone != [] && d.email != []
    && d.amount >= 1
  }

  /** Mongoose's cast to Boolean: `true`, `'true'`, `1`, `'1'` and `'yes'`
      become true, `false`, `'false'`, `0`, `'0'` and `'no'` become false,
      and anything else is a cast error. */
  function CastBoolean(v: JsValue): (r: Option<bool>)
    ensures v.Bool? ==> r == Some(v.b)
    ensures r.Some? ==> v.Bool? || v.Num? || v.Str?
  {
    match v
    case Bool(b) => Some(b)
    case Num(n) => if n == 1 then Some(true) else if n == 0 then Some(false) else None
    case Str(s) =>
      if s in {"true", "1", "yes"} then Some(true)
      else if s in {"false", "0", "no"} then Some(false)
      else None
    case _ => None
  }

  /** `new Donation({...})` with status `pending`: the `trim` setters on
      name, phone and e-mail, the `lowercase` setter on e-mail, the empty
      `donationUsedFor` default, and both timestamps at `now`. The id is
      left at 0 until the pre-save hook assigns it. */
  function NewDonation(user: Option<string>, name: Option<string>, phone: string, email: string,
                       amount: int, anonymous: bool, checkoutRequestId: string, now: int): (d: Donation)
    ensures d.status == Pending && d.receipt == None && d.usedFor == []
    ensures d.checkoutRequestId == Trim(checkoutRequestId)
    ensures d.createdAt == now && d.updatedAt == now
    ensures Trim(d.email) == d.email && ToLower(d.email) == d.email
    ensures d.name.Some? <==> name.Some?
    ensures d.name.Some? ==> Trim(d.name.value) == d.name.value
    ensures Trim(d.phone) == d.phone
  {
    var e := ToLower(Trim(email));
    assert Trim(e) == e && ToLower(e) == e by {
      TrimLowerCommute(Trim(email));
      TrimIdempotent(email);
      ToLowerIdempotent(Trim(email));
    }
    TrimIdempotent(if name.Some? then name.value else []);
    TrimIdempotent(phone);
    TrimIdempotent(checkoutRequestId);
    Donation(0, user, if name.Some? then Some(Trim(name.value)) else None, Trim(phone), e,
             amount, anonymous, Pending, None, now, Trim(checkoutRequestId), [], now, now)
  }

  /** What assigning a value to a trimmed String field stores. */
  datatype Cast = Unset | Text(s: string) | CastError

  /** The String cast takes an object for a document and reads its `_id`
      when that is a non-empty string. */
  function DocumentId(v: JsValue): Option<string> {
    if v.Obj? && Member(v.members, "_id").Str? && Member(v.members, "_id").s != []
    then Some(Member(v.members, "_id").s)
    else None
  }

  /** Mongoose's cast to String for a field with a `trim` setter: `null`
      and `undefined` unset the field, numbers and booleans are printed,
      strings are trimmed, an object standing for a document gives its
      `_id`, and any other array or object is a cast error. */
  function CastString(v: JsValue): (c: Cast)
    ensures c.CastError? <==> v.Arr? || (v.Obj? && DocumentId(v).None?)
    ensures c.Unset? <==> v.Undefined? || v.Null?
    ensures v.Obj? && c.Text? ==> Member(v.members, "_id") == Str(DocumentId(v).value) && c.s == Trim(DocumentId(v).value)
  {
    match v
    case Undefined => Unset
    case Null => Unset
    case Bool(b) => Text(if b then "true" else "false")
    case Num(n) => Text(IntToString(n))
    case Str(s) => Text(Trim(s))
    case Obj(_) => if DocumentId(v).Some? then Text(Trim(DocumentId(v).value)) else CastError
    case Arr(_) => CastError
  }

  /** What the cast stores carries no surrounding white space. */
  lemma CastStringTrimmed(v: JsValue)
    ensures CastString(v).Text? ==> Trim(CastString(v).s) == CastString(v).s
  {
    match v
    case Num(n) => NumberTextTrimmed(n);
    case Str(s) => TrimIdempotent(s);
    case Obj(_) => if DocumentId(v).Some? { TrimIdempotent(DocumentId(v).value); }
    case Bool(b) =>
      var t := if b then "true" else "false";
      assert !IsSpace(t[0]) && !IsSpace(t[|t| - 1]);
      TrimOfTrimmed(t);
    case _ =>
  }
}
