/** Revision 1 of the User service's routes, which the gateway keeps serving
    beside revision 2: the same four handlers, differing only in one message
    and in how the published event reads the updated user. */
module UserServiceV1 {
  import opened Values
  import opened Checks
  import opened Collection
  import opened Users

  /** The keys a new user's body may carry; `userId` is not among them. */
  const CreateFields: set<string> :=
    {"emails", "deliveryAddress", "firstName", "lastName", "phoneNumber", "createdAt", "updatedAt"}

  /** The keys an update may carry. */
  const UpdateFields: set<string> := {"emails", "deliveryAddress"}

  const EmailsInUse := "One or more email addresses are already in use"

  /** What `POST /users/` accepts before it looks at the collection. */
  predicate CreateAccepted(body: Dict)
  {
    && (forall i :: 0 <= i < |body| ==> body[i].0 in CreateFields)
    && Filled(body, "emails")
    && Has(body, "deliveryAddress")
    && AddressValid(Get(body, "deliveryAddress").value)
  }

  /** The validation chain of `POST /users/`, first abort wins. */
  function ValidateCreate(body: Dict): (r: Status)
    ensures r.Pass? <==> CreateAccepted(body)
    ensures r.Abort? ==> r.code == 400
  {
    var fields := CheckAllowedFields(body, CreateFields);
    if fields.Abort? then fields
    else if !Filled(body, "emails") then Abort(400, "emails is a required field")
    else if !Has(body, "deliveryAddress") then Abort(400, "deliveryAddress is a required field")
    else CheckAddress(Get(body, "deliveryAddress").value)
  }

  /** `find_one({'emails': {'$in': emails}})` must find nothing. The server
      refuses an `$in` that is not an array or that holds an operator
      document, and the handler's uncaught error becomes a 500. */
  function CheckEmailsFree(users: seq<Dict>, emails: Value): (r: Status)
    ensures r.Pass? <==> && emails.Array?
                         && (forall j :: 0 <= j < |emails.elems| ==> !OperatorDoc(emails.elems[j]))
                         && forall i :: 0 <= i < |users| ==> !MatchesAny(users[i], "emails", emails.elems)
    ensures r.Abort? ==> r == Abort(500, ServerError) || r == Abort(400, EmailsInUse)
    ensures r == Abort(500, ServerError) <==>
              !emails.Array? || exists j :: 0 <= j < |emails.elems| && OperatorDoc(emails.elems[j])
  {
    if !emails.Array? || exists j :: 0 <= j < |emails.elems| && OperatorDoc(emails.elems[j]) then
      Abort(500, ServerError)
    else if exists i :: 0 <= i < |users| && MatchesAny(users[i], "emails", emails.elems) then
      Abort(400, EmailsInUse)
    else Pass
  }

  /** The stored user: the body with the server's `userId` and both
      timestamps set to `now`. */
  function NewUser(body: Dict, id: string, now: int): (r: Dict)
    ensures forall k :: Has(r, k) <==> Has(body, k) || k == "userId" || k == "createdAt" || k == "updatedAt"
  {
    var d1 := Assign(body, "userId", Str(id));
    var d2 := Assign(d1, "createdAt", Date(now));
    AssignHas(body, "userId", Str(id));
    AssignHas(d1, "createdAt", Date(now));
    AssignHas(d2, "updatedAt", Date(now));
    Assign(d2, "updatedAt", Date(now))
  }

  /** What `PUT /users/<id>` accepts, stated as one condition. */
  predicate UpdateAccepted(body: Dict)
  {
    && (forall i :: 0 <= i < |body| ==> body[i].0 in UpdateFields)
    && (Has(body, "emails") || Has(body, "deliveryAddress"))
    && (Has(body, "emails") ==> EmailList(Get(body, "emails").value))
    && (Has(body, "deliveryAddress") ==> AddressValid(Get(body, "deliveryAddress").value))
  }

  /** The validation chain of `PUT /users/<id>`, first abort wins. */
  function ValidateUpdate(body: Dict): (r: Status)
    ensures r.Pass? <==> UpdateAccepted(body)
    ensures r.Abort? ==> r.code == 400
  {
    var fields := CheckAllowedFields(body, UpdateFields);
    if fields.Abort? then fields
    else if !Has(body, "emails") && !Has(body, "deliveryAddress") then
      Abort(400, "Either emails or deliveryAddress is required")
    else if Has(body, "emails") && !EmailList(Get(body, "emails").value) then
      Abort(400, "emails must be a list of valid email addresses")
    else if Has(body, "deliveryAddress") then CheckAddress(Get(body, "deliveryAddress").value)
    else Pass
  }

  /** The `$set` of an update: the body with the time added. */
  function UpdateChange(body: Dict, now: int): Dict
  {
    Assign(body, "updatedAt", Date(now))
  }

  /** The event built from `new_user.get("emails", [])` and
      `new_user.get("deliveryAddress", {})`. */
  function UpdateEvent(id: string, user: Dict): (r: UserUpdated)
    ensures r.userId == id
    ensures Has(user, "emails") ==> ("emails", r.emails) in user
    ensures !Has(user, "emails") ==> r.emails == Array([])
    ensures Has(user, "deliveryAddress") ==> ("deliveryAddress", r.deliveryAddress) in user
    ensures !Has(user, "deliveryAddress") ==> r.deliveryAddress == Object([])
  {
    UserUpdated(id, GetOr(user, "emails", Array([])), GetOr(user, "deliveryAddress", Object([])))
  }

  /** The users collection, the four handlers over it, and the events the
      update handler has published. */
  class UserStore {
    var users: seq<Dict>
    ghost var outbox: seq<UserUpdated>

    ghost predicate Valid()
      reads this
    {
      UsersValid(users)
    }

    constructor ()
      ensures Valid() && users == [] && outbox == []
    {
      users := [];
      outbox := [];
    }

    /** `GET /users/`: every stored user. */
    method ListUsers() returns (r: seq<Dict>)
      ensures r == users
    {
      r := users;
    }

    /** `GET /users/<id>`: the user with that `userId`, or 404. */
    method GetUser(id: string) returns (r: Reply<Dict>)
      ensures r.Error? <==> forall i :: 0 <= i < |users| ==> !Matches(users[i], "userId", Str(id))
      ensures r.Error? ==> r == Error(404, "User not found")
      ensures r.Ok? ==> r.value in users && Matches(r.value, "userId", Str(id))
    {
      var found := FindOne(users, "userId", Str(id));
      if found.None? {
        return Error(404, "User not found");
      }
      r := Ok(users[found.value]);
    }

    /** `POST /users/`: validate, refuse emails already in use, assign
        `userId`, stamp, insert. */
    method CreateUser(body: Dict, id: string, now: int) returns (r: Reply<Dict>)
      requires Valid() && FreshUserId(users, id)
      modifies this
      ensures Valid() && outbox == old(outbox)
      ensures ValidateCreate(body).Abort? ==>
                r == Error(ValidateCreate(body).code, ValidateCreate(body).message) && users == old(users)
      ensures ValidateCreate(body).Pass? && CheckEmailsFree(old(users), Get(body, "emails").value).Abort? ==>
                var c := CheckEmailsFree(old(users), Get(body, "emails").value);
                r == Error(c.code, c.message) && users == old(users)
      ensures ValidateCreate(body).Pass? && CheckEmailsFree(old(users), Get(body, "emails").value).Pass? ==>
                r == Ok(NewUser(body, id, now)) && users == old(users) + [NewUser(body, id, now)]
    {
      var check := ValidateCreate(body);
      if check.Abort? {
        return Error(check.code, check.message);
      }
      var free := CheckEmailsFree(users, Get(body, "emails").value);
      if free.Abort? {
        return Error(free.code, free.message);
      }
      var data := body;
      data := Assign(data, "userId", Str(id));
      data := Assign(data, "createdAt", Date(now));
      data := Assign(data, "updatedAt", Date(now));
      NewUserStamps(body, id, now);
      AddUserValid(users, data, id);
      users := users + [data];
      r := Ok(data);
    }

    /** `PUT /users/<id>`: validate, look up, `$set` the body and the time,
        publish the user's new emails and address, answer the user before
        and after. */
    method UpdateUser(id: string, body: Dict, now: int) returns (r: Reply<(Dict, Dict)>)
      requires Valid() && DistinctKeys(body)
      modifies this
      ensures Valid()
      ensures ValidateUpdate(body).Abort? ==>
                && r == Error(ValidateUpdate(body).code, ValidateUpdate(body).message)
                && users == old(users) && outbox == old(outbox)
      ensures ValidateUpdate(body).Pass? && FindOne(old(users), "userId", Str(id)).None? ==>
                r == Error(404, "User not found") && users == old(users) && outbox == old(outbox)
      ensures ValidateUpdate(body).Pass? && FindOne(old(users), "userId", Str(id)).Some? ==>
                var i := FindOne(old(users), "userId", Str(id)).value;
                && users == old(users)[i := SetFields(old(users)[i], UpdateChange(body, now))]
                && r == Ok((old(users)[i], users[i]))
                && outbox == old(outbox) + [UserUpdated(id, GetOr(users[i], "emails", Array([])),
                                                        GetOr(users[i], "deliveryAddress", Object([])))]
    {
      var check := ValidateUpdate(body);
      if check.Abort? {
        return Error(check.code, check.message);
      }
      var found := FindOne(users, "userId", Str(id));
      if found.None? {
        return Error(404, "User not found");
      }
      var i := found.value;
      var oldUser := users[i];
      var data := body;
      data := Assign(data, "updatedAt", Date(now));
      UpdateChangeKeys(body, now);
      RefindAfterSet(users, "userId", Str(id), data);
      KeepUsersValid(users, i, data);
      users := users[i := SetFields(oldUser, data)];
      var newUser := users[FindOne(users, "userId", Str(id)).value];
      outbox := outbox + [UpdateEvent(id, newUser)];
      r := Ok((oldUser, newUser));
    }
  }

  /** An update's `$set` carries only the two contact fields and the time. */
  lemma UpdateChangeKeys(body: Dict, now: int)
    requires UpdateAccepted(body)
    ensures forall k :: Has(UpdateChange(body, now), k) ==> k in UpdateFields || k == "updatedAt"
  {
    AssignHas(body, "updatedAt", Date(now));
  }

  /** A created user carries the server's `userId` and `createdAt == updatedAt
      == now`, whatever timestamps the body held; every other field is the body's. */
  lemma NewUserStamps(body: Dict, id: string, now: int)
    ensures Get(NewUser(body, id, now), "userId") == Some(Str(id))
    ensures Get(NewUser(body, id, now), "createdAt") == Some(Date(now))
    ensures Get(NewUser(body, id, now), "updatedAt") == Some(Date(now))
    ensures forall k :: k != "userId" && k != "createdAt" && k != "updatedAt" ==>
                        Get(NewUser(body, id, now), k) == Get(body, k)
    ensures DistinctKeys(body) ==> DistinctKeys(NewUser(body, id, now))
  {
    var d1 := Assign(body, "userId", Str(id));
    var d2 := Assign(d1, "createdAt", Date(now));
    AssignGet(body, "userId", Str(id));
    AssignGet(d1, "createdAt", Date(now));
    AssignGet(d2, "updatedAt", Date(now));
    if DistinctKeys(body) {
      AssignDistinct(body, "userId", Str(id));
      AssignDistinct(d1, "createdAt", Date(now));
      AssignDistinct(d2, "updatedAt", Date(now));
    }
  }

  /** A client can never supply `userId`: a body carrying it, or any other
      key outside the allowed set, is refused with 400 naming a foreign key. */
  lemma CreateRejectsForeignKey(body: Dict, k: string)
    requires Has(body, k) && k !in CreateFields
    ensures ValidateCreate(body).Abort? && ValidateCreate(body).code == 400
    ensures exists k' :: Has(body, k') && k' !in CreateFields &&
                         ValidateCreate(body).message == "Invalid field: " + k'
  {
  }

  /** An email that some stored user already lists makes creation fail with
      400, unless the list also holds an operator document, which the server
      refuses first. */
  lemma DuplicateEmailRejected(users: seq<Dict>, emails: seq<Value>, i: nat, e: Value)
    requires i < |users| && e in emails
    requires Get(users[i], "emails").Some? && Get(users[i], "emails").value.Array?
    requires e in Get(users[i], "emails").value.elems
    ensures CheckEmailsFree(users, Array(emails)) ==
              if exists j :: 0 <= j < |emails| && OperatorDoc(emails[j]) then Abort(500, ServerError)
              else Abort(400, EmailsInUse)
  {
    assert Matches(users[i], "emails", e);
    assert MatchesAny(users[i], "emails", emails);
  }

  /** An operator document among the emails, such as `{"$gt": ""}`, makes
      creation fail with 500 whatever users are stored. */
  lemma OperatorEmailRefused(users: seq<Dict>)
    ensures CheckEmailsFree(users, Array([Object([("$gt", Str(""))])])) == Abort(500, ServerError)
  {
    var op := Object([("$gt", Str(""))]);
    assert op.fields[0].0[0] == '$';
    assert OperatorDoc([op][0]);
  }

  /** A DBRef among the emails, such as `{"$ref": "users", "$id": "x"}`, is no
      operator: it is looked up by equality like any address. */
  lemma DBRefEmailCompared(users: seq<Dict>)
    ensures var ref := Object([("$ref", Str("users")), ("$id", Str("x"))]);
            CheckEmailsFree(users, Array([ref])) ==
              if exists i :: 0 <= i < |users| && Matches(users[i], "emails", ref) then Abort(400, EmailsInUse)
              else Pass
  {
    var ref := Object([("$ref", Str("users")), ("$id", Str("x"))]);
    assert ref.fields[0].0 == "$ref" && ref.fields[1].0 == "$id";
    assert !OperatorDoc([ref][0]);
    if exists i :: 0 <= i < |users| && Matches(users[i], "emails", ref) {
      var i :| 0 <= i < |users| && Matches(users[i], "emails", ref);
      assert MatchesAny(users[i], "emails", [ref]);
    }
  }

  /** An update changes the contact fields the body supplies and `updatedAt`;
      `userId`, the names, the phone number and `createdAt` keep their values,
      and so does a contact field the body leaves out. */
  lemma UpdateChangeFields(user: Dict, body: Dict, now: int)
    requires DistinctKeys(body) && forall i :: 0 <= i < |body| ==> body[i].0 in UpdateFields
    ensures Get(SetFields(user, UpdateChange(body, now)), "updatedAt") == Some(Date(now))
    ensures forall k :: k in UpdateFields ==>
              Get(SetFields(user, UpdateChange(body, now)), k) ==
              if Has(body, k) then Get(body, k) else Get(user, k)
    ensures forall k :: k !in UpdateFields && k != "updatedAt" ==>
              Get(SetFields(user, UpdateChange(body, now)), k) == Get(user, k)
  {
    SetWithTime(user, body, now);
  }
}
