// The visual-query service's own decisions: the urgency check on creation
// and on update, and who may see a query.

module VisualQueryServiceModel {
  import opened Common
  import VQ = VisualQueryModel

  /** The fields of a stored query that the service's checks read or write. */
  datatype QueryRecord = QueryRecord(
    owner: UserId,
    assignedMentor: Option<UserId>,
    status: VQ.QueryStatus,
    urgencyLevel: int,
    anonymous: bool,
    isPublic: bool)

  predicate ValidUrgency(u: int) {
    1 <= u <= 5
  }

  /**
   * createQuery: an urgency outside 1..5 throws; otherwise a DRAFT query.
   * The public flag the caller asks for does not survive the first save,
   * whose creation hook resets it to false.
   */
  function CreateQuery(owner: UserId, urgencyLevel: int, anonymous: bool, isPublic: bool): (r: Outcome<QueryRecord>)
    ensures r.Ok? <==> ValidUrgency(urgencyLevel)
    ensures r.Fail? ==> r.message == "Urgency level must be between 1 and 5"
    ensures r.Ok? ==> r.value.status == VQ.Draft && r.value.owner == owner && r.value.urgencyLevel == urgencyLevel
                      && r.value.assignedMentor.None? && r.value.anonymous == anonymous && !r.value.isPublic
  {
    if urgencyLevel < 1 || urgencyLevel > 5 then Fail("Urgency level must be between 1 and 5")
    else Ok(QueryRecord(owner, None, VQ.Draft, urgencyLevel, anonymous, false))
  }

  /**
   * canUserAccessQuery: never for a missing query; always for its owner and
   * its assigned mentor; for anyone else when it is public or not anonymous.
   */
  function CanUserAccessQuery(store: map<string, QueryRecord>, queryId: string, user: UserId): (r: bool)
    ensures queryId !in store ==> !r
    ensures queryId in store && store[queryId].owner == user ==> r
    ensures queryId in store && store[queryId].assignedMentor == Some(user) ==> r
    ensures queryId in store && store[queryId].isPublic ==> r
    ensures r <==> queryId in store
                   && (store[queryId].owner == user || store[queryId].assignedMentor == Some(user)
                       || store[queryId].isPublic || !store[queryId].anonymous)
  {
    if queryId !in store then false
    else
      var q := store[queryId];
      if q.owner == user then true
      else if q.assignedMentor.Some? && q.assignedMentor.value == user then true
      else if q.isPublic then true
      else !q.anonymous
  }

  /** An anonymous, private query is seen only by its owner and its mentor. */
  lemma AnonymousPrivateQueriesAreHidden(store: map<string, QueryRecord>, queryId: string, user: UserId)
    requires queryId in store && store[queryId].anonymous && !store[queryId].isPublic
    ensures CanUserAccessQuery(store, queryId, user) <==> store[queryId].owner == user || store[queryId].assignedMentor == Some(user)
  {
  }

  /**
   * updateQueryUrgency: a missing query, a caller who is not the owner, or an
   * urgency outside 1..5 throws, checked in that order; otherwise only the
   * urgency of that query changes.
   */
  function UpdateQueryUrgency(store: map<string, QueryRecord>, queryId: string, newUrgency: int, user: UserId): (r: Outcome<map<string, QueryRecord>>)
    ensures queryId !in store ==> r == Fail("Query not found")
    ensures queryId in store && store[queryId].owner != user ==> r == Fail("Only query owner can update urgency")
    ensures queryId in store && store[queryId].owner == user && !ValidUrgency(newUrgency) ==> r == Fail("Urgency must be between 1 and 5")
    ensures r.Ok? <==> queryId in store && store[queryId].owner == user && ValidUrgency(newUrgency)
    ensures r.Ok? ==> r.value.Keys == store.Keys && r.value[queryId] == store[queryId].(urgencyLevel := newUrgency)
                      && forall k :: k in store && k != queryId ==> r.value[k] == store[k]
  {
    if queryId !in store then Fail("Query not found")
    else if store[queryId].owner != user then Fail("Only query owner can update urgency")
    else if newUrgency < 1 || newUrgency > 5 then Fail("Urgency must be between 1 and 5")
    else Ok(store[queryId := store[queryId].(urgencyLevel := newUrgency)])
  }

  /** Every query the service creates or updates keeps an urgency in 1..5. */
  lemma UrgencyStaysValid(store: map<string, QueryRecord>, queryId: string, newUrgency: int, user: UserId)
    requires forall k :: k in store ==> ValidUrgency(store[k].urgencyLevel)
    requires UpdateQueryUrgency(store, queryId, newUrgency, user).Ok?
    ensures forall k :: k in UpdateQueryUrgency(store, queryId, newUrgency, user).value ==>
              ValidUrgency(UpdateQueryUrgency(store, queryId, newUrgency, user).value[k].urgencyLevel)
  {
    var after := UpdateQueryUrgency(store, queryId, newUrgency, user).value;
    forall k | k in after
      ensures ValidUrgency(after[k].urgencyLevel)
    {
      if k != queryId {
        assert after[k] == store[k];
      }
    }
  }
}
