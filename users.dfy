/** What both revisions of the User service share: the users collection's
    invariant and the update event they publish for the Order service. */
module Users {
  import opened Values
  import opened Collection

  /** One call of `publish_user_update_event(id, emails, delivery_address)`. */
  datatype UserUpdated = UserUpdated(userId: string, emails: Value, deliveryAddress: Value)

  /** Every stored user has a string `userId`, no two share one, and each has
      `emails` and a `deliveryAddress`, since creation demands both and an
      update never removes a field. */
  ghost predicate UsersValid(users: seq<Dict>)
  {
    && (forall i :: 0 <= i < |users| ==>
          && Get(users[i], "userId").Some? && Get(users[i], "userId").value.Str?
          && Has(users[i], "emails") && Has(users[i], "deliveryAddress"))
    && (forall i, j :: 0 <= i < j < |users| ==> Get(users[i], "userId") != Get(users[j], "userId"))
  }

  /** No stored user has `id` as its `userId`. */
  ghost predicate FreshUserId(users: seq<Dict>, id: string)
  {
    forall i :: 0 <= i < |users| ==> Get(users[i], "userId") != Some(Str(id))
  }

  /** A `$set` that leaves `userId` alone keeps the collection valid. */
  lemma KeepUsersValid(users: seq<Dict>, i: nat, upd: Dict)
    requires UsersValid(users) && i < |users| && !Has(upd, "userId")
    ensures UsersValid(users[i := SetFields(users[i], upd)])
  {
    SetFieldsGet(users[i], upd);
  }

  /** A stored user whose `userId` is `id` is the one `find_one({'userId': id})` returns. */
  lemma FindUser(users: seq<Dict>, id: string, i: nat)
    requires UsersValid(users) && i < |users| && Get(users[i], "userId") == Some(Str(id))
    ensures FindOne(users, "userId", Str(id)) == Some(i)
  {
    FindOneIs(users, "userId", Str(id), i);
  }

  /** Inserting a user with a fresh `userId`, `emails` and a `deliveryAddress`
      keeps the collection valid. */
  lemma AddUserValid(users: seq<Dict>, user: Dict, id: string)
    requires UsersValid(users) && FreshUserId(users, id)
    requires Get(user, "userId") == Some(Str(id)) && Has(user, "emails") && Has(user, "deliveryAddress")
    ensures UsersValid(users + [user])
  {
    var us := users + [user];
    assert forall i :: 0 <= i < |users| ==> us[i] == users[i];
  }
}
