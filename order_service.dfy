/** The Order service's routes: create an order, list orders by status, and
    update an order's status or its denormalised contact details. */
module OrderService {
  import opened Values
  import opened Checks
  import opened Collection

  /** The keys a new order's body may carry; `orderId` is not among them. */
  const CreateFields: set<string> :=
    {"items", "userEmails", "deliveryAddress", "orderStatus", "createdAt", "updatedAt", "userId"}

  /** The keys a details update may carry. */
  const DetailsFields: set<string> := {"userEmails", "deliveryAddress"}

  /** The fields every item must carry. */
  const ItemFields: seq<string> := ["itemId", "quantity", "price"]

  /** The three order statuses. */
  const Statuses: seq<string> := ["under process", "shipping", "delivered"]

  /** `isinstance(x, (str, int, float))`; a Python bool is an int too. */
  predicate ItemFieldValue(v: Value)
  {
    v.Str? || v.Number? || v.Bool?
  }

  /** An item: an object carrying each of `ItemFields` as a string or number. */
  predicate ItemValid(item: Value)
  {
    item.Object? && forall f :: f in ItemFields ==> FieldOk(item.fields, f, ItemFieldValue)
  }

  /** The checks on one item of a new order. */
  function CheckItem(item: Value): (r: Status)
    ensures r.Pass? <==> ItemValid(item)
    ensures r.Abort? ==> r.code == 400
  {
    if !item.Object? then Abort(400, "Each item must be an object")
    else
      match FirstBadField(item.fields, ItemFields, ItemFieldValue)
      case None => Pass
      case Some(f) => Abort(400, "Each item must contain a valid " + f)
  }

  /** The item checks over a list, stopping at the first bad item. */
  function CheckItemList(items: seq<Value>): (r: Status)
    ensures r.Pass? <==> forall i :: 0 <= i < |items| ==> ItemValid(items[i])
    ensures r.Abort? ==> r.code == 400
  {
    if items == [] then Pass
    else if CheckItem(items[0]).Abort? then CheckItem(items[0])
    else
      var r := CheckItemList(items[1..]);
      assert forall i :: 0 < i < |items| ==> items[i] == items[1..][i - 1];
      r
  }

  /** `for item in data['items']`: Python walks a list by element, a string by
      character and a dict by key (neither a character nor a key is an
      object); any other value is not iterable, and the TypeError becomes a
      500. */
  function CheckItems(v: Value): (r: Status)
    ensures r.Pass? <==> (v.Array? && forall i :: 0 <= i < |v.elems| ==> ItemValid(v.elems[i]))
                         || v == Str([]) || v == Object([])
    ensures r.Abort? ==> r.code == 400 || (r.code == 500 && !v.Array? && !v.Str? && !v.Object?)
    ensures !v.Array? && !v.Str? && !v.Object? ==> r == Abort(500, ServerError)
  {
    match v
    case Array(es) => CheckItemList(es)
    case Str(s) => if s == [] then Pass else Abort(400, "Each item must be an object")
    case Object(fs) => if fs == [] then Pass else Abort(400, "Each item must be an object")
    case _ => Abort(500, ServerError)
  }

  /** What `POST /orders/` accepts, stated as one condition. */
  predicate CreateAccepted(body: Dict)
  {
    && (forall i :: 0 <= i < |body| ==> body[i].0 in CreateFields)
    && Filled(body, "items")
    && Get(body, "items").value.Array?
    && (forall i :: 0 <= i < |Get(body, "items").value.elems| ==> ItemValid(Get(body, "items").value.elems[i]))
    && Filled(body, "userEmails")
    && Has(body, "deliveryAddress")
    && AddressValid(Get(body, "deliveryAddress").value)
    && Has(body, "orderStatus")
  }

  /** The validation chain of `POST /orders/`, first abort wins. */
  function ValidateCreate(body: Dict): (r: Status)
    ensures r.Pass? <==> CreateAccepted(body)
    ensures r.Abort? ==> r.code == 400 || r.code == 500
    ensures r.Abort? && r.code == 500 ==>
              Filled(body, "items") && !Get(body, "items").value.Array? &&
              !Get(body, "items").value.Str? && !Get(body, "items").value.Object?
  {
    var fields := CheckAllowedFields(body, CreateFields);
    if fields.Abort? then fields
    else if !Filled(body, "items") then Abort(400, "items is a required field")
    else if !Filled(body, "userEmails") then Abort(400, "userEmails is a required field")
    else if !Has(body, "deliveryAddress") then Abort(400, "deliveryAddress is a required field")
    else if !Has(body, "orderStatus") then Abort(400, "orderStatus is a required field")
    else
      var items := CheckItems(Get(body, "items").value);
      if items.Abort? then items
      else CheckAddress(Get(body, "deliveryAddress").value)
  }

  /** One of the three statuses. */
  predicate IsStatus(v: Value)
  {
    v.Str? && v.s in Statuses
  }

  /** The check of `PUT /orders/<id>/status`; other keys of the body are ignored. */
  function CheckStatus(body: Dict): (r: Status)
    ensures r.Pass? <==> Has(body, "orderStatus") && IsStatus(Get(body, "orderStatus").value)
    ensures r.Abort? ==> r == Abort(400, "Invalid or missing orderStatus")
  {
    if !Has(body, "orderStatus") || !IsStatus(Get(body, "orderStatus").value) then
      Abort(400, "Invalid or missing orderStatus")
    else Pass
  }

  /** What `PUT /orders/<id>/details` accepts, stated as one condition. */
  predicate DetailsAccepted(body: Dict)
  {
    && (forall i :: 0 <= i < |body| ==> body[i].0 in DetailsFields)
    && (Has(body, "userEmails") || Has(body, "deliveryAddress"))
    && (Has(body, "userEmails") ==> EmailList(Get(body, "userEmails").value))
    && (Has(body, "deliveryAddress") ==> AddressValid(Get(body, "deliveryAddress").value))
  }

  /** The validation chain of `PUT /orders/<id>/details`, first abort wins. */
  function ValidateDetails(body: Dict): (r: Status)
    ensures r.Pass? <==> DetailsAccepted(body)
    ensures r.Abort? ==> r.code == 400
  {
    var fields := CheckAllowedFields(body, DetailsFields);
    if fields.Abort? then fields
    else if !Has(body, "userEmails") && !Has(body, "deliveryAddress") then
      Abort(400, "Either userEmails or deliveryAddress is required")
    else if Has(body, "userEmails") && !EmailList(Get(body, "userEmails").value) then
      Abort(400, "userEmails must be an array of valid email addresses")
    else if Has(body, "deliveryAddress") then CheckAddress(Get(body, "deliveryAddress").value)
    else Pass
  }

  /** The `status` query parameter of `GET /orders/`: present, non-empty and
      one of the three statuses. */
  function CheckStatusQuery(status: Option<string>): (r: Status)
    ensures r.Pass? <==> status.Some? && status.value in Statuses
    ensures r.Abort? ==> r == Abort(400, "Invalid or missing status parameter")
  {
    if status.None? || status.value == "" || status.value !in Statuses then
      Abort(400, "Invalid or missing status parameter")
    else Pass
  }

  /** The stored order: the body with both timestamps set to `now` and the
      server's `orderId` added. */
  function NewOrder(body: Dict, id: string, now: int): (r: Dict)
    ensures forall k :: Has(r, k) <==> Has(body, k) || k == "createdAt" || k == "updatedAt" || k == "orderId"
  {
    var d1 := Assign(body, "createdAt", Date(now));
    var d2 := Assign(d1, "updatedAt", Date(now));
    AssignHas(body, "createdAt", Date(now));
    AssignHas(d1, "updatedAt", Date(now));
    AssignHas(d2, "orderId", Str(id));
    Assign(d2, "orderId", Str(id))
  }

  /** The `$set` of a status update: the new status and the time. */
  function StatusChange(body: Dict, now: int): Dict
    requires Has(body, "orderStatus")
  {
    [("orderStatus", Get(body, "orderStatus").value), ("updatedAt", Date(now))]
  }

  /** The `$set` of a details update: the body with the time added. */
  function DetailsChange(body: Dict, now: int): Dict
  {
    Assign(body, "updatedAt", Date(now))
  }

  /** Every stored order carries a string `orderId`, and no two share one. */
  ghost predicate OrderIdsUnique(orders: seq<Dict>)
  {
    && (forall i :: 0 <= i < |orders| ==> Get(orders[i], "orderId").Some? && Get(orders[i], "orderId").value.Str?)
    && (forall i, j :: 0 <= i < j < |orders| ==> Get(orders[i], "orderId") != Get(orders[j], "orderId"))
  }

  /** No stored order has `id` as its `orderId`. */
  ghost predicate FreshOrderId(orders: seq<Dict>, id: string)
  {
    forall i :: 0 <= i < |orders| ==> Get(orders[i], "orderId") != Some(Str(id))
  }

  /** The orders collection and the four handlers over it. */
  class OrderStore {
    var orders: seq<Dict>

    ghost predicate Valid()
      reads this
    {
      OrderIdsUnique(orders)
    }

    constructor ()
      ensures Valid() && orders == []
    {
      orders := [];
    }

    /** `POST /orders/`: validate, stamp, assign `orderId`, insert. */
    method CreateOrder(body: Dict, id: string, now: int) returns (r: Reply<Dict>)
      requires Valid() && FreshOrderId(orders, id)
      modifies this
      ensures Valid()
      ensures ValidateCreate(body).Abort? ==>
                r == Error(ValidateCreate(body).code, ValidateCreate(body).message) && orders == old(orders)
      ensures ValidateCreate(body).Pass? ==>
                r == Ok(NewOrder(body, id, now)) && orders == old(orders) + [NewOrder(body, id, now)]
    {
      var check := ValidateCreate(body);
      if check.Abort? {
        return Error(check.code, check.message);
      }
      var data := body;
      data := Assign(data, "createdAt", Date(now));
      data := Assign(data, "updatedAt", Date(now));
      data := Assign(data, "orderId", Str(id));
      AssignGet(Assign(Assign(body, "createdAt", Date(now)), "updatedAt", Date(now)), "orderId", Str(id));
      orders := orders + [data];
      r := Ok(data);
    }

    /** `GET /orders/?status=...`: every stored order with that status. */
    method ListByStatus(status: Option<string>) returns (r: Reply<seq<Dict>>)
      ensures r.Error? <==> !(status.Some? && status.value in Statuses)
      ensures r.Error? ==> r == Error(400, "Invalid or missing status parameter")
      ensures r.Ok? ==> r.value == Find(orders, "orderStatus", Str(status.value))
      ensures r.Ok? ==> forall d :: d in r.value <==> d in orders && Matches(d, "orderStatus", Str(status.value))
    {
      var check := CheckStatusQuery(status);
      if check.Abort? {
        return Error(check.code, check.message);
      }
      r := Ok(Find(orders, "orderStatus", Str(status.value)));
    }

    /** `PUT /orders/<id>/status`: validate, look up, `$set` status and time,
        answer the order before and after. */
    method UpdateStatus(id: string, body: Dict, now: int) returns (r: Reply<(Dict, Dict)>)
      requires Valid()
      modifies this
      ensures Valid()
      ensures CheckStatus(body).Abort? ==>
                r == Error(400, "Invalid or missing orderStatus") && orders == old(orders)
      ensures CheckStatus(body).Pass? && FindOne(old(orders), "orderId", Str(id)).None? ==>
                r == Error(404, "Order not found") && orders == old(orders)
      ensures CheckStatus(body).Pass? && FindOne(old(orders), "orderId", Str(id)).Some? ==>
                var i := FindOne(old(orders), "orderId", Str(id)).value;
                && orders == old(orders)[i := SetFields(old(orders)[i], StatusChange(body, now))]
                && r == Ok((old(orders)[i], orders[i]))
    {
      var check := CheckStatus(body);
      if check.Abort? {
        return Error(check.code, check.message);
      }
      var found := FindOne(orders, "orderId", Str(id));
      if found.None? {
        return Error(404, "Order not found");
      }
      var i := found.value;
      var oldOrder := orders[i];
      var change := StatusChange(body, now);
      SetFieldsGet(oldOrder, change);
      RefindAfterSet(orders, "orderId", Str(id), change);
      KeepIdsUnique(orders, i, change);
      orders := orders[i := SetFields(oldOrder, change)];
      var again := FindOne(orders, "orderId", Str(id));
      r := Ok((oldOrder, orders[again.value]));
    }

    /** `PUT /orders/<id>/details`: validate, look up, `$set` the body and
        the time, answer the order before and after. */
    method UpdateDetails(id: string, body: Dict, now: int) returns (r: Reply<(Dict, Dict)>)
      requires Valid() && DistinctKeys(body)
      modifies this
      ensures Valid()
      ensures ValidateDetails(body).Abort? ==>
                r == Error(ValidateDetails(body).code, ValidateDetails(body).message) && orders == old(orders)
      ensures ValidateDetails(body).Pass? && FindOne(old(orders), "orderId", Str(id)).None? ==>
                r == Error(404, "Order not found") && orders == old(orders)
      ensures ValidateDetails(body).Pass? && FindOne(old(orders), "orderId", Str(id)).Some? ==>
                var i := FindOne(old(orders), "orderId", Str(id)).value;
                && orders == old(orders)[i := SetFields(old(orders)[i], DetailsChange(body, now))]
                && r == Ok((old(orders)[i], orders[i]))
    {
      var check := ValidateDetails(body);
      if check.Abort? {
        return Error(check.code, check.message);
      }
      var found := FindOne(orders, "orderId", Str(id));
      if found.None? {
        return Error(404, "Order not found");
      }
      var i := found.value;
      var oldOrder := orders[i];
      var data := body;
      data := Assign(data, "updatedAt", Date(now));
      DetailsChangeKeys(body, now);
      RefindAfterSet(orders, "orderId", Str(id), data);
      KeepIdsUnique(orders, i, data);
      orders := orders[i := SetFields(oldOrder, data)];
      var again := FindOne(orders, "orderId", Str(id));
      r := Ok((oldOrder, orders[again.value]));
    }
  }

  /** A `$set` that leaves `orderId` alone keeps the ids unique. */
  lemma KeepIdsUnique(orders: seq<Dict>, i: nat, upd: Dict)
    requires OrderIdsUnique(orders) && i < |orders| && !Has(upd, "orderId")
    ensures OrderIdsUnique(orders[i := SetFields(orders[i], upd)])
  {
    SetFieldsGet(orders[i], upd);
  }

  /** A details update's `$set` carries only the two contact fields and the time. */
  lemma DetailsChangeKeys(body: Dict, now: int)
    requires DetailsAccepted(body)
    ensures forall k :: Has(DetailsChange(body, now), k) ==> k in DetailsFields || k == "updatedAt"
  {
    AssignHas(body, "updatedAt", Date(now));
  }

  /** A client can never supply `orderId`: a body carrying it, or any other
      key outside the allowed set, is refused with 400 naming a foreign key. */
  lemma CreateRejectsForeignKey(body: Dict, k: string)
    requires Has(body, k) && k !in CreateFields
    ensures ValidateCreate(body).Abort? && ValidateCreate(body).code == 400
    ensures exists k' :: Has(body, k') && k' !in CreateFields &&
                         ValidateCreate(body).message == "Invalid field: " + k'
  {
  }

  /** Creation demands `orderStatus` but never looks at its value: replacing
      it changes no verdict. */
  lemma CreateIgnoresStatusValue(body: Dict, v: Value)
    requires Has(body, "orderStatus")
    ensures ValidateCreate(Assign(body, "orderStatus", v)) == ValidateCreate(body)
  {
    var body' := Assign(body, "orderStatus", v);
    AssignGet(body, "orderStatus", v);
    AssignHas(body, "orderStatus", v);
    ForeignKeyIgnoresValues(body, body', CreateFields);
    assert Get(body', "items") == Get(body, "items");
    assert Get(body', "userEmails") == Get(body, "userEmails");
    assert Get(body', "deliveryAddress") == Get(body, "deliveryAddress");
  }

  /** A created order carries the server's `orderId` and `createdAt ==
      updatedAt == now`, whatever timestamps the body held; every other field
      is the body's. */
  lemma NewOrderStamps(body: Dict, id: string, now: int)
    ensures Get(NewOrder(body, id, now), "orderId") == Some(Str(id))
    ensures Get(NewOrder(body, id, now), "createdAt") == Some(Date(now))
    ensures Get(NewOrder(body, id, now), "updatedAt") == Some(Date(now))
    ensures forall k :: k != "orderId" && k != "createdAt" && k != "updatedAt" ==>
                        Get(NewOrder(body, id, now), k) == Get(body, k)
    ensures DistinctKeys(body) ==> DistinctKeys(NewOrder(body, id, now))
  {
    var d1 := Assign(body, "createdAt", Date(now));
    var d2 := Assign(d1, "updatedAt", Date(now));
    AssignGet(body, "createdAt", Date(now));
    AssignGet(d1, "updatedAt", Date(now));
    AssignGet(d2, "orderId", Str(id));
    if DistinctKeys(body) {
      AssignDistinct(body, "createdAt", Date(now));
      AssignDistinct(d1, "updatedAt", Date(now));
      AssignDistinct(d2, "orderId", Str(id));
    }
  }

  /** A status update changes `orderStatus` and `updatedAt` and nothing else. */
  lemma StatusChangeFields(order: Dict, body: Dict, now: int)
    requires Has(body, "orderStatus")
    ensures Get(SetFields(order, StatusChange(body, now)), "orderStatus") == Get(body, "orderStatus")
    ensures Get(SetFields(order, StatusChange(body, now)), "updatedAt") == Some(Date(now))
    ensures forall k :: k != "orderStatus" && k != "updatedAt" ==>
                        Get(SetFields(order, StatusChange(body, now)), k) == Get(order, k)
  {
    var change := StatusChange(body, now);
    forall k ensures Has(change, k) <==> k == "orderStatus" || k == "updatedAt" {
      HasCons(change, k);
      HasCons(change[1..], k);
    }
    SetFieldsGet(order, change);
  }

  /** A details update changes the contact fields the body supplies and
      `updatedAt`; every other field, and a contact field the body leaves
      out, keeps its value. */
  lemma DetailsChangeFields(order: Dict, body: Dict, now: int)
    requires DistinctKeys(body) && forall i :: 0 <= i < |body| ==> body[i].0 in DetailsFields
    ensures Get(SetFields(order, DetailsChange(body, now)), "updatedAt") == Some(Date(now))
    ensures forall k :: k in DetailsFields ==>
              Get(SetFields(order, DetailsChange(body, now)), k) ==
              if Has(body, k) then Get(body, k) else Get(order, k)
    ensures forall k :: k !in DetailsFields && k != "updatedAt" ==>
              Get(SetFields(order, DetailsChange(body, now)), k) == Get(order, k)
  {
    SetWithTime(order, body, now);
  }

  /** An empty `userEmails` list passes the details check. */
  lemma EmptyEmailListAccepted()
    ensures ValidateDetails([("userEmails", Array([]))]) == Pass
  {
    var body := [("userEmails", Array([]))];
    assert body[0].0 == "userEmails";
  }

  /** Creation and details updates judge an address by the same rule. */
  lemma SameAddressRule(body: Dict)
    requires Has(body, "deliveryAddress") && CreateAccepted(body)
    ensures ValidateDetails([("deliveryAddress", Get(body, "deliveryAddress").value)]) == Pass
  {
    var details := [("deliveryAddress", Get(body, "deliveryAddress").value)];
    assert details[0].0 == "deliveryAddress";
  }
}
