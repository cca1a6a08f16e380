/** The donation side of backend/server.js over the store of Donation
    documents: starting an M-Pesa STK push, which records a pending donation
    once the provider has accepted it; the provider's callback, which
    settles that donation; and the admin status override and delete. The
    provider, the clock, the token check and date parsing are parameters:
    the model does not see the network. */
module Donations {
  import opened Wrappers
  import opened Text
  import opened JsValues
  import opened Validation
  import opened Sanitization
  import opened DonationModel

  // ----- the push request -----

  const MissingFields := "Amount, email, and phone are required"
  const NameRequired := "Name is required for non-anonymous donations"
  const BadPhone := "Please enter a valid Kenyan phone number (254XXXXXXXXX)"
  const NotConfigured := "Payment service not configured. Please contact administrator."
  const PushFailed := "Failed to initiate payment"

  /** `/^254[0-9]{9}$/.test(s)`. */
  predicate KenyanPhone(s: string) {
    |s| == 12 && s[..3] == "254" && forall i | 3 <= i < 12 :: IsDigit(s[i])
  }

  /** The three 400 checks in the order the handler makes them; `None`
      when all pass. */
  function PushCheck(b: Body): (r: Option<string>)
    ensures var amount, email, phone := Field(b, "amount"), Field(b, "email"), Field(b, "phone");
      var present := Truthy(amount) && Truthy(email) && Truthy(phone);
      var named := Truthy(Field(b, "anonymous")) || Truthy(Field(b, "name"));
      && (r == Some(MissingFields) <==> !present)
      && (r == Some(NameRequired) <==> present && !named)
      && (r == Some(BadPhone) <==> present && named && !KenyanPhone(ToJsString(phone)))
      && (r == None <==> present && named && KenyanPhone(ToJsString(phone)))
  {
    if !Truthy(Field(b, "amount")) || !Truthy(Field(b, "email")) || !Truthy(Field(b, "phone")) then Some(MissingFields)
    else if !Truthy(Field(b, "anonymous")) && !Truthy(Field(b, "name")) then Some(NameRequired)
    else if !KenyanPhone(ToJsString(Field(b, "phone"))) then Some(BadPhone)
    else None
  }

  /** The pending record the handler builds from a sanitised body that
      passed the checks, or `None` when `save()` would refuse it: the amount
      is `NaN`, `anonymous || false` does not cast to a Boolean, or the
      schema validation fails (for instance a missing name when
      `anonymous` is a truthy string that casts to false). */
  function Draft(b: Body, checkout: string, user: Option<string>, now: int): (d: Option<Donation>)
    requires forall k | k in DonationFields :: !Throws(Field(b, k))
    requires PushCheck(b) == None
    ensures d.Some? ==> DonationOk(d.value) && d.value.status == Pending
    ensures d.Some? ==> d.value.checkoutRequestId == Trim(checkout) && d.value.user == user
    ensures d.Some? ==> (d.value.name.None? <==> Truthy(Field(b, "anonymous")))
    ensures d.Some? ==> Some(d.value.amount) == ParseFloatValue(Field(b, "amount"))
  {
    var a := Field(b, "anonymous");
    var amount := ParseFloatValue(Field(b, "amount"));
    var anonymous := CastBoolean(if Truthy(a) then a else Bool(false));
    assert "name" in DonationFields && "email" in DonationFields && "phone" in DonationFields;
    assert !Throws(Field(b, "name")) && !Throws(Field(b, "email")) && !Throws(Field(b, "phone"));
    if amount.None? || anonymous.None? then None
    else
      var name := if Truthy(a) then None else Some(Field(b, "name").s);
      var d := NewDonation(user, name, Field(b, "phone").s, Field(b, "email").s,
                           amount.value, anonymous.value, checkout, now);
      if DonationOk(d) then Some(d) else None
  }

  /** What the push endpoint answers. `Thrown` is the TypeError from the
      sanitiser, which goes to the error handler. */
  datatype PushReply =
    | Thrown
    | BadRequest(error: string)
    | ServerError(error: string)
    | Started(checkoutRequestId: string)

  // ----- the callback -----

  /** `v.key` on a request value: only objects have members. */
  function Get(v: JsValue, key: string): JsValue {
    if v.Obj? then Member(v.members, key) else Undefined
  }

  /** The result of `items.find(item => item.Name === name)?.Value`. */
  datatype Lookup = Threw | Missing | Found(value: JsValue)

  /** The search reaches item `i`, which is `null` or `undefined`, so
      reading its `Name` throws. */
  predicate ThrowsAt(items: seq<JsValue>, name: string, i: int) {
    && 0 <= i < |items|
    && (items[i].Undefined? || items[i].Null?)
    && forall j | 0 <= j < i :: Get(items[j], "Name") != Str(name)
  }

  function FindItem(items: seq<JsValue>, name: string): (r: Lookup)
    ensures r.Found? ==> exists i | 0 <= i < |items| :: Get(items[i], "Name") == Str(name) && r.value == Get(items[i], "Value")
    ensures r.Missing? ==> forall i | 0 <= i < |items| :: Get(items[i], "Name") != Str(name) && !items[i].Undefined? && !items[i].Null?
    ensures r.Threw? <==> exists i :: ThrowsAt(items, name, i)
  {
    if items == [] then Missing
    else if items[0].Undefined? || items[0].Null? then
      assert ThrowsAt(items, name, 0);
      Threw
    else if Get(items[0], "Name") == Str(name) then Found(Get(items[0], "Value"))
    else
      var r := FindItem(items[1..], name);
      assert r.Threw? ==> exists i :: ThrowsAt(items, name, i) by {
        if r.Threw? {
          var i :| ThrowsAt(items[1..], name, i);
          assert ThrowsAt(items, name, i + 1) by {
            forall j | 0 <= j < i + 1 ensures Get(items[j], "Name") != Str(name) {
              if j > 0 { assert items[j] == items[1..][j - 1]; }
            }
          }
        }
      }
      assert (exists i :: ThrowsAt(items, name, i)) ==> r.Threw? by {
        if exists i :: ThrowsAt(items, name, i) {
          var i :| ThrowsAt(items, name, i);
          assert ThrowsAt(items[1..], name, i - 1) by {
            assert items[1..][i - 1] == items[i];
            assert forall j | 0 <= j < i - 1 :: items[1..][j] == items[j + 1];
          }
        }
      }
      r
  }

  function ValueOf(l: Lookup): JsValue {
    if l.Found? then l.value else Undefined
  }

  /** `callbackData.Body.stkCallback` when both are present. */
  function StkCallback(cb: JsValue): Option<JsValue> {
    var body := Get(cb, "Body");
    if Truthy(body) && Truthy(Get(body, "stkCallback")) then Some(Get(body, "stkCallback")) else None
  }

  // ----- the checkout id as a query filter -----

  /** One condition the cast filter puts on a record's checkout id. Each
      operand went through the same cast as a stored value (`Unset` is a
      `null` operand); `Exists` carries its cast flag. */
  datatype Cond =
    | Eq(q: Cast) | Ne(q: Cast) | In(qs: seq<Cast>) | Nin(qs: seq<Cast>)
    | Gt(q: Cast) | Gte(q: Cast) | Lt(q: Cast) | Lte(q: Cast) | Exists(b: bool)

  /** `a` sorts strictly before `b` in MongoDB's binary string order. */
  predicate Precedes(a: string, b: string) {
    if a == [] then b != [] else b != [] && (a[0] < b[0] || (a[0] == b[0] && Precedes(a[1..], b[1..])))
  }

  /** Whether a stored checkout id, always a string, satisfies a condition:
      `null` equals no string, and an ordering against `null` never holds. */
  predicate Holds(c: Cond, id: string) {
    match c
    case Eq(q) => q == Text(id)
    case Ne(q) => q != Text(id)
    case In(qs) => Text(id) in qs
    case Nin(qs) => Text(id) !in qs
    case Gt(q) => q.Text? && Precedes(q.s, id)
    case Gte(q) => q.Text? && (q.s == id || Precedes(q.s, id))
    case Lt(q) => q.Text? && Precedes(id, q.s)
    case Lte(q) => q.Text? && (id == q.s || Precedes(id, q.s))
    case Exists(b) => b
  }

  /** The element-wise cast of an operand list; `None` when one element
      throws. */
  function CastEach(items: seq<JsValue>): (r: Option<seq<Cast>>)
    ensures r.None? <==> exists i | 0 <= i < |items| :: CastString(items[i]).CastError?
    ensures r.Some? ==> |r.value| == |items| && forall i | 0 <= i < |items| :: r.value[i] == CastString(items[i])
  {
    if items == [] then Some([])
    else if CastString(items[0]).CastError? then None
    else
      match CastEach(items[1..])
      case None => None
      case Some(qs) => Some([CastString(items[0])] + qs)
  }

  /** The operand of `$in` and `$nin`: an array is cast element by element,
      any other value as a list of one. */
  function CastList(v: JsValue): Option<seq<Cast>> {
    CastEach(if v.Arr? then v.items else [v])
  }

  /** Casting one operator of an operator object; `None` when the operand
      cannot be cast or the operator is not one a String path accepts here,
      which throws. */
  function CastOperator(op: string, v: JsValue): (r: Option<Cond>)
    ensures r.Some? ==> op in {"$eq", "$ne", "$in", "$nin", "$gt", "$gte", "$lt", "$lte", "$exists"}
  {
    if op == "$in" || op == "$nin" then
      match CastList(v)
      case None => None
      case Some(qs) => Some(if op == "$in" then In(qs) else Nin(qs))
    else if op == "$exists" then
      if v.Undefined? || v.Null? then Some(Exists(false))
      else
        match CastBoolean(v)
        case None => None
        case Some(b) => Some(Exists(b))
    else if CastString(v).CastError? then None
    else if op == "$eq" then Some(Eq(CastString(v)))
    else if op == "$ne" then Some(Ne(CastString(v)))
    else if op == "$gt" then Some(Gt(CastString(v)))
    else if op == "$gte" then Some(Gte(CastString(v)))
    else if op == "$lt" then Some(Lt(CastString(v)))
    else if op == "$lte" then Some(Lte(CastString(v)))
    else None
  }

  /** Every member of an operator object cast in turn; `None` when one throws. */
  function CastOperators(props: seq<Prop>): (r: Option<seq<Cond>>)
    ensures r.Some? ==> |r.value| == |props|
    ensures r.Some? ==> forall k | 0 <= k < |props| :: CastOperator(props[k].key, props[k].value) == Some(r.value[k])
  {
    if props == [] then Some([])
    else
      match (CastOperator(props[0].key, props[0].value), CastOperators(props[1..]))
      case (Some(c), Some(cs)) => Some([c] + cs)
      case _ => None
  }

  /** Whether an object in a filter has a key that starts with `$`, which
      makes Mongoose read all of its keys as operators. */
  predicate HasOperator(props: seq<Prop>) {
    props != [] && ((|props[0].key| > 0 && props[0].key[0] == '$') || HasOperator(props[1..]))
  }

  /** Mongoose's cast of `{checkoutRequestId: v}` for a String path with a
      `trim` setter: a scalar is compared for equality after the cast, an
      array becomes `$in`, and an object is read as operators, or else as a
      document whose `_id` is the value. `None` when the cast throws. An
      `undefined` value is dropped from the query, so it puts no condition
      on the checkout id at all; `null` asks for a record without one. */
  function CastFilter(v: JsValue): (r: Option<seq<Cond>>)
    ensures v.Str? ==> r == Some([Eq(Text(Trim(v.s)))])
    ensures v.Num? ==> r == Some([Eq(Text(IntToString(v.n)))])
    ensures v.Null? ==> r == Some([Eq(Unset)])
    ensures v.Undefined? ==> r == Some([])
    ensures v.Obj? && !HasOperator(v.members) ==> (r.None? <==> DocumentId(v).None?)
    ensures v.Obj? && !HasOperator(v.members) && r.Some? ==> r == Some([Eq(Text(Trim(DocumentId(v).value)))])
  {
    match v
    case Undefined => Some([])
    case Arr(_) =>
      (match CastList(v)
       case None => None
       case Some(qs) => Some([In(qs)]))
    case Obj(props) =>
      if HasOperator(props) then CastOperators(props)
      else if CastString(v).CastError? then None
      else Some([Eq(CastString(v))])
    case _ => Some([Eq(CastString(v))])
  }

  /** `findOne({checkoutRequestId: id, status: 'pending'})` with the cast
      filter: the first pending record that satisfies every condition. */
  function FirstPending(records: seq<Donation>, conds: seq<Cond>): (r: Option<nat>)
    ensures r.Some? ==> r.value < |records| && Matches(records[r.value], conds)
    ensures r.Some? ==> forall j | 0 <= j < r.value :: !Matches(records[j], conds)
    ensures r.None? ==> forall j | 0 <= j < |records| :: !Matches(records[j], conds)
  {
    if records == [] then None
    else if Matches(records[0], conds) then Some(0)
    else
      match FirstPending(records[1..], conds)
      case None => None
      case Some(i) => Some(i + 1)
  }

  predicate Matches(d: Donation, conds: seq<Cond>) {
    d.status == Pending && forall k | 0 <= k < |conds| :: Holds(conds[k], d.checkoutRequestId)
  }

  /** A checkout id sent as a string selects exactly the pending records
      that carry it once trimmed. */
  lemma TextIdMatches(d: Donation, s: string)
    ensures CastFilter(Str(s)).Some?
    ensures Matches(d, CastFilter(Str(s)).value) <==> d.status == Pending && d.checkoutRequestId == Trim(s)
  {
    var conds := CastFilter(Str(s)).value;
    assert conds == [Eq(Text(Trim(s)))];
    assert Matches(d, conds) <==> d.status == Pending && Holds(conds[0], d.checkoutRequestId);
  }

  /** The successful branch for the matched record: `None` when reading the
      metadata throws or `save()` refuses the new values (an array or
      object receipt, or a transaction date that is not a valid Date). */
  function Completion(d: Donation, stk: JsValue, dateOf: JsValue -> Option<int>, now: int): (r: Option<Donation>)
    ensures r.Some? ==> r.value.status == Completed && r.value.updatedAt == now
    ensures r.Some? ==> r.value == d.(status := Completed, receipt := r.value.receipt, paidAt := r.value.paidAt, updatedAt := now)
  {
    var meta := Get(stk, "CallbackMetadata");
    var items := Get(meta, "Item");
    if meta.Undefined? || meta.Null? || !items.Arr? then None
    else
      var receipt := FindItem(items.items, "MpesaReceiptNumber");
      var date := FindItem(items.items, "TransactionDate");
      var phone := FindItem(items.items, "PhoneNumber");
      if receipt.Threw? || date.Threw? || phone.Threw? then None
      else
        match (CastString(ValueOf(receipt)), dateOf(ValueOf(date)))
        case (CastError, _) => None
        case (_, None) => None
        case (Unset, Some(t)) => Some(d.(status := Completed, receipt := None, paidAt := t, updatedAt := now))
        case (Text(s), Some(t)) => Some(d.(status := Completed, receipt := Some(s), paidAt := t, updatedAt := now))
  }

  /** Both branches of the handler once the filter is cast: a success
      completes the first matching pending record, anything else fails it. */
  function Settle(records: seq<Donation>, stk: JsValue, conds: seq<Cond>, dateOf: JsValue -> Option<int>, now: int): seq<Donation> {
    match FirstPending(records, conds)
    case None => records
    case Some(i) =>
      if Get(stk, "ResultCode") == Num(0) then
        match Completion(records[i], stk, dateOf, now)
        case None => records
        case Some(d) => records[i := d]
      else records[i := records[i].(status := Failed, updatedAt := now)]
  }

  /** The store after the callback handler: a callback without
      `Body.stkCallback`, or whose checkout id cannot be cast, changes
      nothing. */
  function Reconcile(records: seq<Donation>, cb: JsValue, dateOf: JsValue -> Option<int>, now: int): seq<Donation> {
    match StkCallback(cb)
    case None => records
    case Some(stk) =>
      match CastFilter(Get(stk, "CheckoutRequestID"))
      case None => records
      case Some(conds) => Settle(records, stk, conds, dateOf, now)
  }

  /** The checkout id a callback names, or `undefined`. */
  function CallbackId(cb: JsValue): JsValue {
    match StkCallback(cb)
    case None => Undefined
    case Some(stk) => Get(stk, "CheckoutRequestID")
  }

  /** The cast filter of a callback's checkout id; `None` without
      `Body.stkCallback` or when the cast throws. */
  function CallbackFilter(cb: JsValue): (r: Option<seq<Cond>>)
    ensures r.Some? ==> StkCallback(cb).Some? && CastFilter(CallbackId(cb)) == r
  {
    match StkCallback(cb)
    case None => None
    case Some(stk) => CastFilter(Get(stk, "CheckoutRequestID"))
  }

  /** What `Settle` can do to the records: change the first matching
      pending record only, into a record that is no longer pending. */
  lemma SettleEffect(records: seq<Donation>, stk: JsValue, conds: seq<Cond>, dateOf: JsValue -> Option<int>, now: int)
    ensures var r := Settle(records, stk, conds, dateOf, now);
      && |r| == |records|
      && (forall j | 0 <= j < |r| && r[j] != records[j] :: FirstPending(records, conds) == Some(j))
      && (forall j | 0 <= j < |r| && r[j] != records[j] ::
            && r[j].status != Pending
            && (r[j].status == Completed <==> Get(stk, "ResultCode") == Num(0))
            && r[j].donationId == records[j].donationId && r[j].amount == records[j].amount
            && r[j].email == records[j].email && r[j].name == records[j].name
            && r[j].anonymous == records[j].anonymous
            && r[j].checkoutRequestId == records[j].checkoutRequestId
            && r[j].updatedAt == now)
  {
  }

  /** A callback changes at most one record, the first pending one the
      cast filter selects; that record leaves `pending`, to `completed`
      exactly when `ResultCode` is the number 0, and keeps its id, amount,
      donor and checkout id. Completed and failed records are never touched. */
  lemma ReconcileEffect(records: seq<Donation>, cb: JsValue, dateOf: JsValue -> Option<int>, now: int)
    ensures var r := Reconcile(records, cb, dateOf, now);
      && |r| == |records|
      && (forall j | 0 <= j < |r| && r[j] != records[j] ::
            CallbackFilter(cb).Some? && FirstPending(records, CallbackFilter(cb).value) == Some(j))
      && (forall j | 0 <= j < |r| && records[j].status != Pending :: r[j] == records[j])
      && (forall j | 0 <= j < |r| && r[j] != records[j] ::
            && r[j].status != Pending
            && (r[j].status == Completed <==> Get(StkCallback(cb).value, "ResultCode") == Num(0))
            && r[j].donationId == records[j].donationId && r[j].amount == records[j].amount
            && r[j].email == records[j].email && r[j].name == records[j].name
            && r[j].anonymous == records[j].anonymous
            && r[j].checkoutRequestId == records[j].checkoutRequestId
            && r[j].updatedAt == now)
  {
    var stk := StkCallback(cb);
    if stk.Some? && CastFilter(Get(stk.value, "CheckoutRequestID")).Some? {
      SettleEffect(records, stk.value, CastFilter(Get(stk.value, "CheckoutRequestID")).value, dateOf, now);
    }
  }

  /** What happens to the selected record: a `ResultCode` other than the
      number 0 marks it failed and stamps it; 0 completes it with the
      metadata's values when they can be read and saved, and otherwise
      leaves every record as it was. */
  lemma ReconcileTransition(records: seq<Donation>, cb: JsValue, dateOf: JsValue -> Option<int>, now: int, i: nat)
    requires CallbackFilter(cb).Some? && FirstPending(records, CallbackFilter(cb).value) == Some(i)
    ensures var r := Reconcile(records, cb, dateOf, now);
      var stk := StkCallback(cb).value;
      var done := Completion(records[i], stk, dateOf, now);
      && (Get(stk, "ResultCode") != Num(0) ==> r == records[i := records[i].(status := Failed, updatedAt := now)])
      && (Get(stk, "ResultCode") == Num(0) && done.Some? ==> r == records[i := done.value])
      && (Get(stk, "ResultCode") == Num(0) && done.None? ==> r == records)
  {
  }

  /** On success with readable metadata, the selected record is completed
      with the trimmed `MpesaReceiptNumber` value as its receipt and the
      parsed `TransactionDate` as its payment time. */
  lemma ReceiptStored(records: seq<Donation>, cb: JsValue, dateOf: JsValue -> Option<int>, now: int,
                      i: nat, items: seq<JsValue>, receipt: string, t: int)
    requires CallbackFilter(cb).Some? && FirstPending(records, CallbackFilter(cb).value) == Some(i)
    requires Get(StkCallback(cb).value, "ResultCode") == Num(0)
    requires Get(Get(StkCallback(cb).value, "CallbackMetadata"), "Item") == Arr(items)
    requires FindItem(items, "MpesaReceiptNumber") == Found(Str(receipt))
    requires !FindItem(items, "TransactionDate").Threw? && !FindItem(items, "PhoneNumber").Threw?
    requires dateOf(ValueOf(FindItem(items, "TransactionDate"))) == Some(t)
    ensures Reconcile(records, cb, dateOf, now) ==
      records[i := records[i].(status := Completed, receipt := Some(Trim(receipt)), paidAt := t, updatedAt := now)]
  {
    CompletionOfItems(records[i], StkCallback(cb).value, dateOf, now, items, receipt, t);
    ReconcileTransition(records, cb, dateOf, now, i);
  }

  /** `Completion` when the metadata's items can be read. */
  lemma CompletionOfItems(d: Donation, stk: JsValue, dateOf: JsValue -> Option<int>, now: int,
                          items: seq<JsValue>, receipt: string, t: int)
    requires Get(Get(stk, "CallbackMetadata"), "Item") == Arr(items)
    requires FindItem(items, "MpesaReceiptNumber") == Found(Str(receipt))
    requires !FindItem(items, "TransactionDate").Threw? && !FindItem(items, "PhoneNumber").Threw?
    requires dateOf(ValueOf(FindItem(items, "TransactionDate"))) == Some(t)
    ensures Completion(d, stk, dateOf, now) ==
      Some(d.(status := Completed, receipt := Some(Trim(receipt)), paidAt := t, updatedAt := now))
  {
    var meta := Get(stk, "CallbackMetadata");
    assert meta.Obj? && Get(meta, "Item").Arr?;
    assert CastString(ValueOf(FindItem(items, "MpesaReceiptNumber"))) == Text(Trim(receipt));
  }

  /** Conversely, a record the callback completed holds as its receipt the
      `MpesaReceiptNumber` item's value. */
  lemma CompletedCarriesReceipt(records: seq<Donation>, cb: JsValue, dateOf: JsValue -> Option<int>, now: int, j: nat)
    requires j < |records|
    requires Reconcile(records, cb, dateOf, now)[j].status == Completed
    requires records[j].status == Pending
    ensures var items := Get(Get(StkCallback(cb).value, "CallbackMetadata"), "Item");
      && items.Arr?
      && var receipt := FindItem(items.items, "MpesaReceiptNumber");
      && !receipt.Threw?
      && Reconcile(records, cb, dateOf, now)[j].receipt ==
           if CastString(ValueOf(receipt)).Text? then Some(CastString(ValueOf(receipt)).s) else None
  {
    var r := Reconcile(records, cb, dateOf, now);
    ReconcileEffect(records, cb, dateOf, now);
    assert r[j] != records[j];
  }

  /** The operator `$ne` casts its operand as the String path does. */
  lemma NeCast(v: JsValue)
    requires !CastString(v).CastError?
    ensures CastOperator("$ne", v) == Some(Ne(CastString(v)))
  {
    assert "$ne"[1] != "$in"[1] && "$ne"[2] != "$eq"[2];
  }

  /** An operator object with one member casts to that member's condition. */
  lemma SingleOperator(p: Prop, c: Cond)
    requires CastOperator(p.key, p.value) == Some(c)
    ensures CastOperators([p]) == Some([c])
  {
    assert [p][1..] == [];
    assert CastOperators([p][1..]) == Some([]);
    assert [c] + [] == [c];
  }

  /** `{"$ne": ""}` casts to the one condition "not the empty string". */
  lemma NotEmptyFilter(v: JsValue)
    requires v == Obj([Prop("$ne", Str(""))])
    ensures CastFilter(v) == Some([Ne(Text(""))])
  {
    assert CastString(Str("")) == Text("") by {
      assert Trim("") == "";
    }
    NeCast(Str(""));
    SingleOperator(Prop("$ne", Str("")), Ne(Text("")));
    assert HasOperator(v.members) by {
      assert v.members[0].key[0] == '$';
    }
  }

  /** The checkout id is not only compared: an operator object in its place
      is obeyed. With `{"$ne": ""}` and a failure code, the callback fails
      the first pending record whose checkout id is not empty, whichever
      donation that is. */
  lemma OperatorIdFailsAny(records: seq<Donation>, cb: JsValue, dateOf: JsValue -> Option<int>, now: int, i: nat)
    requires StkCallback(cb).Some?
    requires Get(StkCallback(cb).value, "CheckoutRequestID") == Obj([Prop("$ne", Str(""))])
    requires Get(StkCallback(cb).value, "ResultCode") != Num(0)
    requires i < |records| && records[i].status == Pending && records[i].checkoutRequestId != []
    requires forall j | 0 <= j < i :: records[j].status != Pending || records[j].checkoutRequestId == []
    ensures Reconcile(records, cb, dateOf, now) == records[i := records[i].(status := Failed, updatedAt := now)]
  {
    NotEmptyFilter(CallbackId(cb));
    var conds := [Ne(Text(""))];
    assert CallbackFilter(cb) == Some(conds);
    assert Matches(records[i], conds) by {
      assert Holds(conds[0], records[i].checkoutRequestId);
    }
    assert FirstPending(records, conds) == Some(i);
    ReconcileTransition(records, cb, dateOf, now, i);
  }

  /** A callback without a checkout id is not refused: the `undefined` key
      is dropped from the query, which becomes `{status: 'pending'}`. A
      failure code then fails the first pending donation, whoever made it,
      and a success with readable metadata completes it. */
  lemma MissingIdSettlesFirst(records: seq<Donation>, cb: JsValue, dateOf: JsValue -> Option<int>, now: int, i: nat)
    requires StkCallback(cb).Some? && CallbackId(cb).Undefined?
    requires i < |records| && records[i].status == Pending
    requires forall j | 0 <= j < i :: records[j].status != Pending
    ensures CallbackFilter(cb) == Some([])
    ensures var stk := StkCallback(cb).value;
      var r := Reconcile(records, cb, dateOf, now);
      var done := Completion(records[i], stk, dateOf, now);
      && (Get(stk, "ResultCode") != Num(0) ==> r == records[i := records[i].(status := Failed, updatedAt := now)])
      && (Get(stk, "ResultCode") == Num(0) && done.Some? ==> r == records[i := done.value])
  {
    var conds: seq<Cond> := [];
    assert CallbackFilter(cb) == Some(conds);
    assert Matches(records[i], conds);
    assert FirstPending(records, conds) == Some(i);
    ReconcileTransition(records, cb, dateOf, now, i);
  }

  /** The cases the handler acknowledges without changing anything: no
      `Body.stkCallback`, a checkout id whose cast throws, no pending record
      the filter selects, or a success without `CallbackMetadata`, which
      throws before any write. A missing checkout id is not among them:
      its filter selects every pending record. */
  lemma ReconcileNoChange(records: seq<Donation>, cb: JsValue, dateOf: JsValue -> Option<int>, now: int)
    requires || CallbackFilter(cb).None?
             || FirstPending(records, CallbackFilter(cb).value).None?
             || (Get(StkCallback(cb).value, "ResultCode") == Num(0)
                 && Get(StkCallback(cb).value, "CallbackMetadata").Undefined?)
    ensures Reconcile(records, cb, dateOf, now) == records
  {
  }

  /** A repeated callback changes nothing more, as long as no other pending
      record satisfies the same filter. */
  lemma ReconcileIdempotent(records: seq<Donation>, cb: JsValue, dateOf: JsValue -> Option<int>, now: int)
    requires CallbackFilter(cb).Some? ==>
      var conds := CallbackFilter(cb).value;
      forall i, j | 0 <= i < j < |records| :: Matches(records[i], conds) ==> !Matches(records[j], conds)
    ensures var r := Reconcile(records, cb, dateOf, now);
      Reconcile(r, cb, dateOf, now) == r
  {
    var r := Reconcile(records, cb, dateOf, now);
    ReconcileEffect(records, cb, dateOf, now);
    if r != records {
      var i :| 0 <= i < |r| && r[i] != records[i];
      var conds := CallbackFilter(cb).value;
      assert FirstPending(records, conds) == Some(i);
      forall j | 0 <= j < |r| ensures !Matches(r[j], conds) {
        if j != i {
          assert r[j] == records[j];
          if j > i {
            assert !Matches(records[j], conds);
          }
        }
      }
      assert FirstPending(r, conds).None?;
    } else {
      assert Reconcile(r, cb, dateOf, now) == r;
    }
  }

  /** The evidently intended filter: the checkout id is used only when it
      is a string, so a callback can select no record but the one that
      carries the id it names. */
  function StrictFilter(v: JsValue): (r: Option<seq<Cond>>)
    ensures r.Some? <==> v.Str?
  {
    if v.Str? then Some([Eq(Text(Trim(v.s)))]) else None
  }

  /** The handler with the intended filter. */
  function ReconcileStrict(records: seq<Donation>, cb: JsValue, dateOf: JsValue -> Option<int>, now: int): seq<Donation> {
    match StkCallback(cb)
    case None => records
    case Some(stk) =>
      match StrictFilter(Get(stk, "CheckoutRequestID"))
      case None => records
      case Some(conds) => Settle(records, stk, conds, dateOf, now)
  }

  /** With the intended filter, the only record a callback can change is a
      pending one whose checkout id is the string the callback names,
      trimmed. */
  lemma StrictTouchesOnlyNamed(records: seq<Donation>, cb: JsValue, dateOf: JsValue -> Option<int>, now: int)
    ensures var r := ReconcileStrict(records, cb, dateOf, now);
      && |r| == |records|
      && forall j | 0 <= j < |r| && r[j] != records[j] ::
           && CallbackId(cb).Str?
           && records[j].status == Pending
           && records[j].checkoutRequestId == Trim(CallbackId(cb).s)
  {
    var stk := StkCallback(cb);
    if stk.Some? && StrictFilter(Get(stk.value, "CheckoutRequestID")).Some? {
      var conds := StrictFilter(Get(stk.value, "CheckoutRequestID")).value;
      SettleEffect(records, stk.value, conds, dateOf, now);
      var r := ReconcileStrict(records, cb, dateOf, now);
      forall j | 0 <= j < |r| && r[j] != records[j]
        ensures records[j].checkoutRequestId == Trim(CallbackId(cb).s)
      {
        assert Matches(records[j], conds);
        assert Holds(conds[0], records[j].checkoutRequestId);
      }
    }
  }

  // ----- the store -----

  /** The `donations` collection and the `donationId` counter. */
  class DonationStore {
    var records: seq<Donation>
    var counter: nat

    /** Every record passed the schema checks when saved, and the counter's
        ids are strictly increasing in save order and never above the
        counter, so they are unique. */
    predicate Valid()
      reads this
    {
      && (forall i | 0 <= i < |records| :: 1 <= records[i].donationId <= counter && DonationOk(records[i]))
      && (forall i, j | 0 <= i < j < |records| :: records[i].donationId < records[j].donationId)
    }

    /** A fresh database: no donations, and the counter will be upserted at 0. */
    constructor ()
      ensures records == [] && counter == 0
      ensures Valid()
    {
      records := [];
      counter := 0;
    }

    /** `save()` of a new document: validation first, then the pre-save
        hook, which increments the counter (`counterUp` says whether that
        update succeeds) and takes the new value as `donationId`; a failure
        of either aborts the save. */
    method SaveNew(d: Donation, counterUp: bool) returns (saved: bool)
      requires Valid()
      modifies this
      ensures Valid()
      ensures saved <==> DonationOk(d) && counterUp
      ensures saved ==> counter == old(counter) + 1 && records == old(records) + [d.(donationId := counter)]
      ensures !saved ==> counter == old(counter) && records == old(records)
    {
      saved := false;
      if !DonationOk(d) {
        return;
      }
      if !counterUp {
        return;
      }
      counter := counter + 1;
      records := records + [d.(donationId := counter)];
      saved := true;
    }

    /** `POST /api/donations/initiate-stk-push`: sanitise, check, then call
        the provider (`provider` is its CheckoutRequestID, `None` when the
        token or push call fails) and only then save a pending record. */
    method InitiatePush(raw: Body, configured: bool, provider: Option<string>, user: Option<string>,
                        counterUp: bool, now: int) returns (reply: PushReply)
      requires Valid()
      modifies this
      ensures Valid()
      ensures var s := SanitizeDonation(raw);
        && (!s.ok ==> reply == Thrown)
        && (s.ok && PushCheck(s.body).Some? ==> reply == BadRequest(PushCheck(s.body).value))
        && (s.ok && PushCheck(s.body) == None && !configured ==> reply == ServerError(NotConfigured))
        && (s.ok && PushCheck(s.body) == None && configured && provider.None? ==> reply == ServerError(PushFailed))
        && (reply.Started? <==>
              && s.ok && PushCheck(s.body) == None && configured && provider.Some?
              && Draft(s.body, provider.value, user, now).Some? && counterUp)
      ensures reply.Started? ==>
        && reply.checkoutRequestId == provider.value
        && counter == old(counter) + 1
        && records == old(records) + [Draft(SanitizeDonation(raw).body, provider.value, user, now).value.(donationId := counter)]
      ensures !reply.Started? ==> records == old(records) && counter == old(counter)
    {
      var req := new Request(raw);
      var ok := req.SanitizeDonationInput();
      if !ok {
        return Thrown;
      }
      var b := req.body;
      SanitizeDonationEffect(raw);
      var check := PushCheck(b);
      if check.Some? {
        return BadRequest(check.value);
      }
      if !configured {
        return ServerError(NotConfigured);
      }
      if provider.None? {
        return ServerError(PushFailed);
      }
      var draft := Draft(b, provider.value, user, now);
      if draft.None? {
        return ServerError(PushFailed);
      }
      var saved := SaveNew(draft.value, counterUp);
      if !saved {
        return ServerError(PushFailed);
      }
      reply := Started(provider.value);
    }

    /** `POST /api/donations/mpesa-callback`: always acknowledged with
        `{received: true}`. */
    method HandleCallback(cb: JsValue, dateOf: JsValue -> Option<int>, now: int) returns (ack: JsValue)
      requires Valid()
      modifies this
      ensures Valid()
      ensures ack == Obj([Prop("received", Bool(true))])
      ensures records == Reconcile(old(records), cb, dateOf, now) && counter == old(counter)
    {
      ack := Obj([Prop("received", Bool(true))]);
      ReconcileEffect(records, cb, dateOf, now);
      var stk := StkCallback(cb);
      if stk.None? {
        return;
      }
      var conds := CastFilter(Get(stk.value, "CheckoutRequestID"));
      if conds.None? {
        return;
      }
      var found := FirstPending(records, conds.value);
      if found.None? {
        return;
      }
      var i := found.value;
      if Get(stk.value, "ResultCode") == Num(0) {
        var done := Completion(records[i], stk.value, dateOf, now);
        if done.Some? {
          records := records[i := done.value];
        }
      } else {
        records := records[i := records[i].(status := Failed, updatedAt := now)];
      }
    }

    /** `PUT /api/admin/donations/:id/status`: 400 for a status outside the
        allow-list, 404 for an unknown id, and otherwise the new status,
        whatever the current one is. */
    method SetStatus(id: nat, status: JsValue, now: int) returns (code: nat)
      requires Valid()
      modifies this
      ensures Valid()
      ensures counter == old(counter)
      ensures StatusOf(status).None? ==> code == 400 && records == old(records)
      ensures StatusOf(status).Some? && IndexOf(old(records), id).None? ==> code == 404 && records == old(records)
      ensures StatusOf(status).Some? && IndexOf(old(records), id).Some? ==>
        var i := IndexOf(old(records), id).value;
        code == 200 && records == old(records)[i := old(records)[i].(status := StatusOf(status).value, updatedAt := now)]
    {
      var s := StatusOf(status);
      if s.None? {
        return 400;
      }
      var i := IndexOf(records, id);
      if i.None? {
        return 404;
      }
      records := records[i.value := records[i.value].(status := s.value, updatedAt := now)];
      code := 200;
    }

    /** `DELETE /api/admin/donations/:id`. The counter is not decremented,
        so a deleted id is never reused. */
    method Delete(id: nat) returns (code: nat)
      requires Valid()
      modifies this
      ensures Valid()
      ensures counter == old(counter)
      ensures IndexOf(old(records), id).None? ==> code == 404 && records == old(records)
      ensures IndexOf(old(records), id).Some? ==>
        var i := IndexOf(old(records), id).value;
        code == 200 && records == old(records)[..i] + old(records)[i + 1..]
    {
      var i := IndexOf(records, id);
      if i.None? {
        return 404;
      }
      records := records[..i.value] + records[i.value + 1..];
      code := 200;
    }
  }

  /** The record a `findById` finds. */
  function IndexOf(records: seq<Donation>, id: nat): (r: Option<nat>)
    ensures r.Some? ==> r.value < |records| && records[r.value].donationId == id
    ensures r.None? ==> forall j | 0 <= j < |records| :: records[j].donationId != id
  {
    if records == [] then None
    else if records[0].donationId == id then Some(0)
    else
      match IndexOf(records[1..], id)
      case None => None
      case Some(i) => Some(i + 1)
  }
}
