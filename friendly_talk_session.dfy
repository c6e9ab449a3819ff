// A friendly-talk session between two users: request, acceptance, the talk
// itself, and its end by completion, cancellation or a report.

module FriendlyTalkSessionModel {
  import opened Common

  datatype SessionStatus = Requested | Accepted | Active | Completed | Cancelled | Reported

  datatype SessionEvent = Accept | Start | Complete | Cancel | Report

  /**
   * The status an event leads to, or None when the source returns false:
   * accept from REQUESTED, start from ACCEPTED, complete from ACTIVE, cancel
   * from REQUESTED or ACCEPTED, report from anything but REPORTED.
   */
  function Next(s: SessionStatus, e: SessionEvent): (r: Option<SessionStatus>)
    ensures e == Accept ==> (r.Some? <==> s == Requested) && (r.Some? ==> r.value == Accepted)
    ensures e == Start ==> (r.Some? <==> s == Accepted) && (r.Some? ==> r.value == Active)
    ensures e == Complete ==> (r.Some? <==> s == Active) && (r.Some? ==> r.value == Completed)
    ensures e == Cancel ==> (r.Some? <==> s == Requested || s == Accepted) && (r.Some? ==> r.value == Cancelled)
    ensures e == Report ==> (r.Some? <==> s != Reported) && (r.Some? ==> r.value == Reported)
  {
    match e
    case Accept => if s == Requested then Some(Accepted) else None
    case Start => if s == Accepted then Some(Active) else None
    case Complete => if s == Active then Some(Completed) else None
    case Cancel => if s == Requested || s == Accepted then Some(Cancelled) else None
    case Report => if s != Reported then Some(Reported) else None
  }

  function Run(s: SessionStatus, es: seq<SessionEvent>): SessionStatus
    decreases |es|
  {
    if es == [] then s
    else
      var n := Next(s, es[0]);
      Run(if n.Some? then n.value else s, es[1..])
  }

  /** A reported session stays reported. */
  lemma {:induction false} ReportedIsTerminal(es: seq<SessionEvent>)
    ensures Run(Reported, es) == Reported
    decreases |es|
  {
    if es != [] {
      assert Next(Reported, es[0]).None?;
      ReportedIsTerminal(es[1..]);
    }
  }

  /** Once completed or cancelled, a session can only stay where it is or be reported. */
  lemma {:induction false} EndedOnlyMovesToReported(s: SessionStatus, es: seq<SessionEvent>)
    requires s == Completed || s == Cancelled
    ensures Run(s, es) == s || Run(s, es) == Reported
    decreases |es|
  {
    if es != [] {
      var n := Next(s, es[0]);
      if n.Some? {
        assert n.value == Reported;
        ReportedIsTerminal(es[1..]);
      } else {
        EndedOnlyMovesToReported(s, es[1..]);
      }
    }
  }

  class FriendlyTalkSession {
    var initiator: UserId
    var receiver: UserId
    var status: SessionStatus
    var anonymous: bool
    var startedAt: Option<Time>
    var endedAt: Option<Time>
    var durationMinutes: int
    var reportReason: Option<string>
    var reportedAt: Option<Time>

    /** A new session as onCreate leaves it: REQUESTED, nothing started. */
    constructor (from: UserId, to: UserId, isAnonymous: bool)
      ensures initiator == from && receiver == to && anonymous == isAnonymous
      ensures status == Requested && startedAt == None && endedAt == None && durationMinutes == 0
      ensures reportReason == None && reportedAt == None
    {
      initiator := from;
      receiver := to;
      status := Requested;
      anonymous := isAnonymous;
      startedAt := None;
      endedAt := None;
      durationMinutes := 0;
      reportReason := None;
      reportedAt := None;
    }

    method AcceptRequest() returns (ok: bool)
      modifies this`status
      ensures ok <==> Next(old(status), Accept).Some?
      ensures status == (if ok then Accepted else old(status))
    {
      if status == Requested {
        status := Accepted;
        return true;
      }
      return false;
    }

    method StartSession(now: Time) returns (ok: bool)
      modifies this`status, this`startedAt
      ensures ok <==> Next(old(status), Start).Some?
      ensures ok ==> status == Active && startedAt == Some(now)
      ensures !ok ==> unchanged(this)
    {
      if status == Accepted {
        status := Active;
        startedAt := Some(now);
        return true;
      }
      return false;
    }

    /** completeSession: ends an ACTIVE session and records its length in whole minutes. */
    method CompleteSession(now: Time) returns (ok: bool)
      modifies this`status, this`endedAt, this`durationMinutes
      ensures ok <==> Next(old(status), Complete).Some?
      ensures ok ==> status == Completed && endedAt == Some(now)
      ensures ok && startedAt.Some? ==> durationMinutes == DurationIn(startedAt.value, now, SecondsPerMinute)
      ensures ok && startedAt.None? ==> durationMinutes == old(durationMinutes)
      ensures ok && startedAt.Some? && startedAt.value <= now ==> durationMinutes >= 0
      ensures !ok ==> unchanged(this)
    {
      if status == Active {
        status := Completed;
        endedAt := Some(now);
        if startedAt.Some? {
          durationMinutes := DurationIn(startedAt.value, now, SecondsPerMinute);
        }
        return true;
      }
      return false;
    }

    method CancelSession() returns (ok: bool)
      modifies this`status
      ensures ok <==> Next(old(status), Cancel).Some?
      ensures status == (if ok then Cancelled else old(status))
    {
      if status == Requested || status == Accepted {
        status := Cancelled;
        return true;
      }
      return false;
    }

    method ReportSession(reason: string, now: Time) returns (ok: bool)
      modifies this`status, this`reportReason, this`reportedAt
      ensures ok <==> Next(old(status), Report).Some?
      ensures ok ==> status == Reported && reportReason == Some(reason) && reportedAt == Some(now)
      ensures !ok ==> unchanged(this)
    {
      if status != Reported {
        status := Reported;
        reportReason := Some(reason);
        reportedAt := Some(now);
        return true;
      }
      return false;
    }

    predicate IsActive()
      reads this
    {
      status == Active
    }

    /** getDurationInMinutes: whole minutes between start and end, or 0 when either is missing. */
    function DurationInMinutes(): (r: int)
      reads this
      ensures startedAt.None? || endedAt.None? ==> r == 0
      ensures startedAt.Some? && endedAt.Some? && startedAt.value <= endedAt.value ==>
                r * SecondsPerMinute <= endedAt.value - startedAt.value < (r + 1) * SecondsPerMinute
    {
      if startedAt.Some? && endedAt.Some? then DurationIn(startedAt.value, endedAt.value, SecondsPerMinute) else 0
    }
  }
}
