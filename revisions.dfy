/** The gateway splits user traffic between the two revisions of the User
    service. They agree: the same verdicts, the same stored users and the same
    published events, with one error message worded differently. */
module Revisions {
  import opened Values
  import opened Checks
  import opened Users
  import V1 = UserServiceV1
  import V2 = UserServiceV2

  /** Both revisions judge a new user's body alike. */
  lemma SameCreateValidation(body: Dict)
    ensures V1.ValidateCreate(body) == V2.ValidateCreate(body)
    ensures V1.ValidateCreate(body).Pass? <==> V2.CreateAccepted(body)
  {
  }

  /** Both revisions judge an update alike; only the wording of the
      email-list message differs ("a list" against "an array"). */
  lemma UpdateValidationAgrees(body: Dict)
    ensures V1.ValidateUpdate(body).Pass? <==> V2.ValidateUpdate(body).Pass?
    ensures V1.ValidateUpdate(body).Pass? <==> V2.UpdateAccepted(body)
    ensures V1.ValidateUpdate(body) == V2.ValidateUpdate(body) ||
            (V1.ValidateUpdate(body) == Abort(400, "emails must be a list of valid email addresses") &&
             V2.ValidateUpdate(body) == Abort(400, "emails must be an array of valid email addresses"))
  {
  }

  /** For a user that has both contact fields, as every stored user does,
      the two revisions publish the same event. */
  lemma SamePayload(id: string, user: Dict)
    requires Has(user, "emails") && Has(user, "deliveryAddress")
    ensures V1.UpdateEvent(id, user) == V2.UpdateEvent(id, user)
    ensures V1.UpdateEvent(id, user) == UserUpdated(id, Get(user, "emails").value, Get(user, "deliveryAddress").value)
  {
  }

  /** The same creation request against the same users gives the same
      answer and the same collection in either revision. */
  method CreateAgrees(s1: V1.UserStore, s2: V2.UserStore, body: Dict, id: string, now: int)
    returns (r1: Reply<Dict>, r2: Reply<Dict>)
    requires s1.Valid() && s2.Valid() && s1.users == s2.users && FreshUserId(s1.users, id)
    modifies s1, s2
    ensures r1 == r2 && s1.users == s2.users
    ensures s1.outbox == old(s1.outbox) && s2.outbox == old(s2.outbox)
  {
    SameCreateValidation(body);
    r1 := s1.CreateUser(body, id, now);
    r2 := s2.CreateUser(body, id, now);
  }

  /** The same update against the same users leaves the same collection and
      publishes the same events in either revision, and answers alike but for
      the email-list message's wording. */
  method UpdateAgrees(s1: V1.UserStore, s2: V2.UserStore, id: string, body: Dict, now: int)
    returns (r1: Reply<(Dict, Dict)>, r2: Reply<(Dict, Dict)>)
    requires s1.Valid() && s2.Valid() && s1.users == s2.users && DistinctKeys(body)
    modifies s1, s2
    ensures s1.users == s2.users
    ensures |old(s1.outbox)| <= |s1.outbox| && |old(s2.outbox)| <= |s2.outbox|
    ensures s1.outbox[|old(s1.outbox)|..] == s2.outbox[|old(s2.outbox)|..]
    ensures r1 == r2 ||
            (r1 == Error(400, "emails must be a list of valid email addresses") &&
             r2 == Error(400, "emails must be an array of valid email addresses"))
  {
    UpdateValidationAgrees(body);
    r1 := s1.UpdateUser(id, body, now);
    r2 := s2.UpdateUser(id, body, now);
  }
}
