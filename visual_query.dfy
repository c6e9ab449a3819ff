// A user's photo or video question to mentors, from draft to resolution.

module VisualQueryModel {
  import opened Common

  /** The statuses the query entity uses. */
  datatype QueryStatus = Draft | Submitted | UnderReview | InProgress | Responded | Resolved | Closed

  /** The guarded transitions; each returns false in the source when refused. */
  datatype QueryEvent = Submit | AssignMentor | MarkResolved | Close

  const DefaultUrgency: int := 3

  /**
   * The status an event leads to, or None when refused: submit from DRAFT,
   * assignMentor from SUBMITTED or UNDER_REVIEW, markResolved from
   * IN_PROGRESS or RESPONDED, close from anything but RESOLVED.
   */
  function Next(s: QueryStatus, e: QueryEvent): (r: Option<QueryStatus>)
    ensures e == Submit ==> (r.Some? <==> s == Draft) && (r.Some? ==> r.value == Submitted)
    ensures e == AssignMentor ==> (r.Some? <==> s == Submitted || s == UnderReview) && (r.Some? ==> r.value == InProgress)
    ensures e == MarkResolved ==> (r.Some? <==> s == InProgress || s == Responded) && (r.Some? ==> r.value == Resolved)
    ensures e == Close ==> (r.Some? <==> s != Resolved) && (r.Some? ==> r.value == Closed)
  {
    match e
    case Submit => if s == Draft then Some(Submitted) else None
    case AssignMentor => if s == Submitted || s == UnderReview then Some(InProgress) else None
    case MarkResolved => if s == InProgress || s == Responded then Some(Resolved) else None
    case Close => if s != Resolved then Some(Closed) else None
  }

  /** The status after a run of events, each refused one leaving the status as it was. */
  function Run(s: QueryStatus, es: seq<QueryEvent>): QueryStatus
    decreases |es|
  {
    if es == [] then s
    else
      var n := Next(s, es[0]);
      Run(if n.Some? then n.value else s, es[1..])
  }

  /** isActive: the query can still receive responses. */
  predicate IsActiveStatus(s: QueryStatus) {
    s == Submitted || s == UnderReview || s == InProgress
  }

  /** Only submitting a draft makes an inactive query active. */
  lemma OnlySubmitActivates(s: QueryStatus, e: QueryEvent)
    requires !IsActiveStatus(s) && Next(s, e).Some? && IsActiveStatus(Next(s, e).value)
    ensures s == Draft && e == Submit
  {
  }

  /** Resolving or closing an active query ends its activity, and an active query can always be closed. */
  lemma ActiveQueryEnds(s: QueryStatus)
    requires IsActiveStatus(s)
    ensures Next(s, Close) == Some(Closed) && !IsActiveStatus(Closed)
    ensures Next(s, MarkResolved).Some? ==> !IsActiveStatus(Next(s, MarkResolved).value)
  {
  }

  /** A resolved query can no longer be changed, not even closed. */
  lemma {:induction false} ResolvedIsTerminal(es: seq<QueryEvent>)
    ensures Run(Resolved, es) == Resolved
    decreases |es|
  {
    if es != [] {
      assert Next(Resolved, es[0]).None?;
      ResolvedIsTerminal(es[1..]);
    }
  }

  /** A closed query stays closed: only close itself is accepted, and it changes nothing. */
  lemma {:induction false} ClosedStaysClosed(es: seq<QueryEvent>)
    ensures Run(Closed, es) == Closed
    decreases |es|
  {
    if es != [] {
      var n := Next(Closed, es[0]);
      assert n.None? || n.value == Closed;
      ClosedStaysClosed(es[1..]);
    }
  }

  /**
   * None of these transitions leads to RESPONDED, so a query that has not
   * reached it is resolved only after a mentor was assigned: the resolving
   * event finds the query IN_PROGRESS.
   */
  lemma {:induction false} ResolutionFollowsAssignment(s: QueryStatus, es: seq<QueryEvent>)
    requires s != Resolved && s != Responded
    requires Run(s, es) == Resolved
    ensures exists i :: 0 <= i < |es| && es[i] == MarkResolved && Run(s, es[..i]) == InProgress
    decreases |es|
  {
    assert es != [];
    var n := Next(s, es[0]);
    var s' := if n.Some? then n.value else s;
    assert Run(s, es) == Run(s', es[1..]);
    if s' == Resolved {
      assert es[0] == MarkResolved && s == InProgress;
      assert Run(s, es[..0]) == s;
    } else {
      ResolutionFollowsAssignment(s', es[1..]);
      var i :| 0 <= i < |es[1..]| && es[1..][i] == MarkResolved && Run(s', es[1..][..i]) == InProgress;
      assert es[..i + 1][1..] == es[1..][..i];
      assert Run(s, es[..i + 1]) == Run(s', es[1..][..i]);
    }
  }

  class VisualQuery {
    var owner: UserId
    var status: QueryStatus
    var urgencyLevel: int
    var anonymous: bool
    var isPublic: bool
    var allowMentorBidding: bool
    var assignedMentor: Option<UserId>
    var submittedAt: Time
    var firstResponseAt: Option<Time>
    var resolvedAt: Option<Time>
    var closedAt: Option<Time>
    var responseDeadline: Option<Time>
    var resolutionRating: int
    var resolutionFeedback: Option<string>
    var viewCount: int
    var helpfulVotes: int
    var updatedAt: Time

    /**
     * A new query built without view or vote counts, as onCreate leaves it:
     * DRAFT unless a status was given, an urgency of 0 becoming 3, private
     * and without bidding whatever was asked. The counts stay at Java's
     * default of 0; onCreate does not change a count the builder set.
     */
    constructor (user: UserId, given: Option<QueryStatus>, urgency: int, isAnonymous: bool, now: Time)
      ensures owner == user && anonymous == isAnonymous
      ensures status == (if given.Some? then given.value else Draft)
      ensures urgencyLevel == (if urgency == 0 then DefaultUrgency else urgency)
      ensures !isPublic && !allowMentorBidding && assignedMentor == None
      ensures viewCount == 0 && helpfulVotes == 0 && submittedAt == now && updatedAt == now
      ensures firstResponseAt == None && resolvedAt == None && closedAt == None
    {
      owner := user;
      status := if given.Some? then given.value else Draft;
      urgencyLevel := if urgency == 0 then DefaultUrgency else urgency;
      anonymous := isAnonymous;
      isPublic := false;
      allowMentorBidding := false;
      assignedMentor := None;
      submittedAt := now;
      firstResponseAt := None;
      resolvedAt := None;
      closedAt := None;
      responseDeadline := None;
      resolutionRating := 0;
      resolutionFeedback := None;
      viewCount := 0;
      helpfulVotes := 0;
      updatedAt := now;
    }

    /** onUpdate: stamps the update, and the first-response and resolution times when first reached. */
    method OnUpdate(now: Time)
      modifies this`updatedAt, this`firstResponseAt, this`resolvedAt
      ensures updatedAt == now
      ensures firstResponseAt == (if status == InProgress && old(firstResponseAt).None? then Some(now) else old(firstResponseAt))
      ensures resolvedAt == (if status == Resolved && old(resolvedAt).None? then Some(now) else old(resolvedAt))
    {
      updatedAt := now;
      if status == InProgress && firstResponseAt.None? {
        firstResponseAt := Some(now);
      }
      if status == Resolved && resolvedAt.None? {
        resolvedAt := Some(now);
      }
    }

    method SubmitQuery(now: Time) returns (ok: bool)
      modifies this`status, this`submittedAt
      ensures ok <==> Next(old(status), Submit).Some?
      ensures ok ==> status == Submitted && submittedAt == now
      ensures !ok ==> unchanged(this)
    {
      if status == Draft {
        status := Submitted;
        submittedAt := now;
        return true;
      }
      return false;
    }

    method AssignMentorTo(mentor: UserId) returns (ok: bool)
      modifies this`status, this`assignedMentor
      ensures ok <==> Next(old(status), AssignMentor).Some?
      ensures ok ==> status == InProgress && assignedMentor == Some(mentor)
      ensures !ok ==> unchanged(this)
    {
      if status == Submitted || status == UnderReview {
        assignedMentor := Some(mentor);
        status := InProgress;
        return true;
      }
      return false;
    }

    /** markResolved: records the rating and feedback as given; the rating is not range-checked. */
    method MarkResolvedWith(rating: int, feedback: string, now: Time) returns (ok: bool)
      modifies this`status, this`resolutionRating, this`resolutionFeedback, this`resolvedAt
      ensures ok <==> Next(old(status), MarkResolved).Some?
      ensures ok ==> status == Resolved && resolutionRating == rating && resolutionFeedback == Some(feedback)
                     && resolvedAt == Some(now)
      ensures !ok ==> unchanged(this)
    {
      if status == InProgress || status == Responded {
        status := Resolved;
        resolutionRating := rating;
        resolutionFeedback := Some(feedback);
        resolvedAt := Some(now);
        return true;
      }
      return false;
    }

    method CloseQuery(now: Time) returns (ok: bool)
      modifies this`status, this`closedAt
      ensures ok <==> Next(old(status), Close).Some?
      ensures ok ==> status == Closed && closedAt == Some(now)
      ensures !ok ==> unchanged(this)
    {
      if status != Resolved {
        status := Closed;
        closedAt := Some(now);
        return true;
      }
      return false;
    }

    method IncrementViewCount()
      modifies this`viewCount
      ensures viewCount == old(viewCount) + 1
    {
      viewCount := viewCount + 1;
    }

    method AddHelpfulVote()
      modifies this`helpfulVotes
      ensures helpfulVotes == old(helpfulVotes) + 1
    {
      helpfulVotes := helpfulVotes + 1;
    }

    predicate IsActive()
      reads this
    {
      IsActiveStatus(status)
    }

    /** getResponseTimeHours: whole hours since submission. */
    function ResponseTimeHours(now: Time): (r: int)
      reads this
      ensures submittedAt <= now ==> r >= 0 && r * SecondsPerHour <= now - submittedAt < (r + 1) * SecondsPerHour
    {
      DurationIn(submittedAt, now, SecondsPerHour)
    }

    /** isOverdue: past the response deadline. */
    predicate IsOverdue(now: Time)
      reads this
    {
      responseDeadline.Some? && responseDeadline.value < now
    }
  }
}
