// Scheduled mentoring sessions: the time validation on creation, and the
// cancel, start and end transitions over the session store.

module SessionServiceModel {
  import opened Common

  /** The statuses the service uses; the enum's own file is not part of this model. */
  datatype SessionStatus = Scheduled | InProgress | Completed | Cancelled

  datatype SessionEvent = CancelEvent | StartEvent | EndEvent

  /** The fields of a session that the service reads or writes. */
  datatype Session = Session(
    title: string,
    description: string,
    startTime: Option<Time>,
    endTime: Option<Time>,
    notes: Option<string>,
    status: SessionStatus)

  const MinDurationMinutes: int := 15
  const MaxDurationHours: int := 4

  /** cancel and start from SCHEDULED, end from IN_PROGRESS; anything else throws. */
  function Next(s: SessionStatus, e: SessionEvent): (r: Option<SessionStatus>)
    ensures e == CancelEvent ==> (r.Some? <==> s == Scheduled) && (r.Some? ==> r.value == Cancelled)
    ensures e == StartEvent ==> (r.Some? <==> s == Scheduled) && (r.Some? ==> r.value == InProgress)
    ensures e == EndEvent ==> (r.Some? <==> s == InProgress) && (r.Some? ==> r.value == Completed)
  {
    match e
    case CancelEvent => if s == Scheduled then Some(Cancelled) else None
    case StartEvent => if s == Scheduled then Some(InProgress) else None
    case EndEvent => if s == InProgress then Some(Completed) else None
  }

  /** The status after a sequence of calls, a call that throws leaving it as it was. */
  function Run(s: SessionStatus, es: seq<SessionEvent>): SessionStatus
    decreases |es|
  {
    if es == [] then s
    else
      var n := Next(s, es[0]);
      Run(if n.Some? then n.value else s, es[1..])
  }

  /** COMPLETED and CANCELLED sessions never change status again. */
  lemma {:induction false} EndedIsTerminal(s: SessionStatus, es: seq<SessionEvent>)
    requires s == Completed || s == Cancelled
    ensures Run(s, es) == s
    decreases |es|
  {
    if es != [] {
      assert Next(s, es[0]).None?;
      EndedIsTerminal(s, es[1..]);
    }
  }

  /** A scheduled session ends up scheduled, in progress, completed or cancelled, and is completed only by way of IN_PROGRESS. */
  lemma {:induction false} CompletedOnlyAfterStart(es: seq<SessionEvent>)
    requires Run(Scheduled, es) == Completed
    ensures exists i :: 0 <= i < |es| && es[i] == StartEvent && Run(Scheduled, es[..i]) == Scheduled
    decreases |es|
  {
    assert es != [];
    var n := Next(Scheduled, es[0]);
    assert es[..0] == [];
    if es[0] == StartEvent {
      assert Run(Scheduled, es[..0]) == Scheduled;
    } else if es[0] == CancelEvent {
      EndedIsTerminal(Cancelled, es[1..]);
    } else {
      assert n.None?;
      CompletedOnlyAfterStart(es[1..]);
      var i :| 0 <= i < |es[1..]| && es[1..][i] == StartEvent && Run(Scheduled, es[1..][..i]) == Scheduled;
      assert es[1..][..i] == es[..i + 1][1..];
      assert Run(Scheduled, es[..i + 1]) == Run(Scheduled, es[..i + 1][1..]);
    }
  }

  /**
   * validateSessionTime as written: the upper bound compares whole hours, so
   * any duration shorter than five hours passes the "4 hours" check.
   */
  function ValidateSessionTimeAsWritten(start: Option<Time>, end: Option<Time>, now: Time): (r: Outcome<()>)
    ensures r.Ok? <==> start.Some? && end.Some? && !(end.value < start.value) && !(start.value < now)
                       && MinDurationMinutes * SecondsPerMinute <= end.value - start.value < (MaxDurationHours + 1) * SecondsPerHour
  {
    if start.None? || end.None? then Fail("Start time and end time are required")
    else if end.value < start.value then Fail("End time must be after start time")
    else if start.value < now then Fail("Cannot create session in the past")
    else if DurationIn(start.value, end.value, SecondsPerMinute) < MinDurationMinutes then Fail("Minimum session duration is 15 minutes")
    else if DurationIn(start.value, end.value, SecondsPerHour) > MaxDurationHours then Fail("Maximum session duration is 4 hours")
    else Ok(())
  }

  /** A session of four hours and thirty minutes passes the as-written check. */
  lemma AsWrittenAcceptsOverFourHours()
    ensures ValidateSessionTimeAsWritten(Some(0), Some(4 * SecondsPerHour + 30 * SecondsPerMinute), 0).Ok?
    ensures !ValidateSessionTime(Some(0), Some(4 * SecondsPerHour + 30 * SecondsPerMinute), 0).Ok?
  {
  }

  /**
   * validateSessionTime with the maximum the message states: both times
   * present, the end not before the start, the start not in the past, and a
   * duration from 15 minutes to 4 hours inclusive. Each failure carries the
   * source's message.
   */
  function ValidateSessionTime(start: Option<Time>, end: Option<Time>, now: Time): (r: Outcome<()>)
    ensures r.Ok? <==> start.Some? && end.Some? && !(start.value < now)
                       && MinDurationMinutes * SecondsPerMinute <= end.value - start.value <= MaxDurationHours * SecondsPerHour
    ensures (start.None? || end.None?) ==> r == Fail("Start time and end time are required")
    ensures start.Some? && end.Some? && end.value < start.value ==> r == Fail("End time must be after start time")
    ensures start.Some? && end.Some? && !(end.value < start.value) && start.value < now ==> r == Fail("Cannot create session in the past")
  {
    if start.None? || end.None? then Fail("Start time and end time are required")
    else if end.value < start.value then Fail("End time must be after start time")
    else if start.value < now then Fail("Cannot create session in the past")
    else if DurationIn(start.value, end.value, SecondsPerMinute) < MinDurationMinutes then Fail("Minimum session duration is 15 minutes")
    else if end.value - start.value > MaxDurationHours * SecondsPerHour then Fail("Maximum session duration is 4 hours")
    else Ok(())
  }

  /** The corrected check accepts exactly what the as-written one accepts, less the durations over four hours. */
  lemma CorrectedCheckIsStricter(start: Option<Time>, end: Option<Time>, now: Time)
    ensures ValidateSessionTime(start, end, now).Ok? <==>
            ValidateSessionTimeAsWritten(start, end, now).Ok? && end.value - start.value <= MaxDurationHours * SecondsPerHour
  {
  }

  /** The notes after a cancellation: the old notes and a newline, if any, then the reason. */
  function CancelledNotes(notes: Option<string>, reason: string): (r: string)
    ensures |r| >= |"Cancelled. Reason: " + reason|
    ensures r[|r| - |"Cancelled. Reason: " + reason|..] == "Cancelled. Reason: " + reason
    ensures notes.Some? ==> |r| > |notes.value| && r[..|notes.value|] == notes.value && r[|notes.value|] == '\n'
    ensures notes.None? ==> r == "Cancelled. Reason: " + reason
  {
    (if notes.Some? then notes.value + "\n" else "") + "Cancelled. Reason: " + reason
  }

  function NotFound(id: string): string {
    "Session not found with id: " + id
  }

  /** The service over its store of sessions, keyed by id. */
  class SessionService {
    var sessions: map<string, Session>

    constructor ()
      ensures sessions == map[]
    {
      sessions := map[];
    }

    /** getSessionById */
    function GetSessionById(id: string): (r: Outcome<Session>)
      reads this
      ensures r.Ok? <==> id in sessions
      ensures r.Ok? ==> r.value == sessions[id]
      ensures r.Fail? ==> r.message == NotFound(id)
    {
      if id in sessions then Ok(sessions[id]) else Fail(NotFound(id))
    }

    /** createSession: stored only when its times pass validation. */
    method CreateSession(id: string, s: Session, now: Time) returns (r: Outcome<Session>)
      modifies this
      ensures r.Ok? <==> ValidateSessionTime(s.startTime, s.endTime, now).Ok?
      ensures r.Ok? ==> r.value == s && sessions == old(sessions)[id := s]
      ensures r.Fail? ==> r.message == ValidateSessionTime(s.startTime, s.endTime, now).message && sessions == old(sessions)
    {
      var check := ValidateSessionTime(s.startTime, s.endTime, now);
      if check.Fail? {
        return Fail(check.message);
      }
      sessions := sessions[id := s];
      return Ok(s);
    }

    /** updateSession: copies title, description, times and notes, with no validation of the new times. */
    method UpdateSession(id: string, updated: Session) returns (r: Outcome<Session>)
      modifies this
      ensures r.Ok? <==> id in old(sessions)
      ensures r.Ok? ==> r.value == updated.(status := old(sessions)[id].status) && sessions == old(sessions)[id := r.value]
      ensures r.Fail? ==> r.message == NotFound(id) && sessions == old(sessions)
    {
      if id !in sessions {
        return Fail(NotFound(id));
      }
      var s := sessions[id].(title := updated.title, description := updated.description,
                             startTime := updated.startTime, endTime := updated.endTime, notes := updated.notes);
      sessions := sessions[id := s];
      return Ok(s);
    }

    /** cancelSession: only a SCHEDULED session; it becomes CANCELLED and the reason is appended to its notes. */
    method CancelSession(id: string, reason: string) returns (r: Outcome<()>)
      modifies this
      ensures r.Ok? <==> id in old(sessions) && Next(old(sessions)[id].status, CancelEvent).Some?
      ensures r.Ok? ==> sessions == old(sessions)[id := old(sessions)[id].(status := Cancelled, notes := Some(CancelledNotes(old(sessions)[id].notes, reason)))]
      ensures id !in old(sessions) ==> r == Fail(NotFound(id))
      ensures id in old(sessions) && r.Fail? ==> r.message == "Only scheduled sessions can be cancelled"
      ensures r.Fail? ==> sessions == old(sessions)
    {
      if id !in sessions {
        return Fail(NotFound(id));
      }
      var s := sessions[id];
      if s.status != Scheduled {
        return Fail("Only scheduled sessions can be cancelled");
      }
      sessions := sessions[id := s.(status := Cancelled, notes := Some(CancelledNotes(s.notes, reason)))];
      return Ok(());
    }

    /** startSession: only a SCHEDULED session whose start time has come; it becomes IN_PROGRESS. */
    method StartSession(id: string, now: Time) returns (r: Outcome<Session>)
      requires id in sessions ==> sessions[id].startTime.Some?
      modifies this
      ensures r.Ok? <==> id in old(sessions) && Next(old(sessions)[id].status, StartEvent).Some?
                         && !(old(sessions)[id].startTime.value > now)
      ensures r.Ok? ==> r.value == old(sessions)[id].(status := InProgress) && sessions == old(sessions)[id := r.value]
      ensures id in old(sessions) && old(sessions)[id].status == Scheduled && old(sessions)[id].startTime.value > now ==>
                r == Fail("Session cannot be started before its scheduled time")
      ensures r.Fail? ==> sessions == old(sessions)
    {
      if id !in sessions {
        return Fail(NotFound(id));
      }
      var s := sessions[id];
      if s.status != Scheduled {
        return Fail("Only scheduled sessions can be started");
      }
      if s.startTime.value > now {
        return Fail("Session cannot be started before its scheduled time");
      }
      var started := s.(status := InProgress);
      sessions := sessions[id := started];
      return Ok(started);
    }

    /** endSession: only an IN_PROGRESS session; it becomes COMPLETED and ends now. */
    method EndSession(id: string, now: Time) returns (r: Outcome<Session>)
      modifies this
      ensures r.Ok? <==> id in old(sessions) && Next(old(sessions)[id].status, EndEvent).Some?
      ensures r.Ok? ==> r.value == old(sessions)[id].(status := Completed, endTime := Some(now)) && sessions == old(sessions)[id := r.value]
      ensures id in old(sessions) && r.Fail? ==> r.message == "Only in-progress sessions can be ended"
      ensures r.Fail? ==> sessions == old(sessions)
    {
      if id !in sessions {
        return Fail(NotFound(id));
      }
      var s := sessions[id];
      if s.status != InProgress {
        return Fail("Only in-progress sessions can be ended");
      }
      var ended := s.(status := Completed, endTime := Some(now));
      sessions := sessions[id := ended];
      return Ok(ended);
    }
  }
}
