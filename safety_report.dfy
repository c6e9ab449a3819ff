// A safety report raised against a user, session or room, and its moderation.

module SafetyReportModel {
  import opened Common

  datatype ReportStatus = Pending | UnderReview | Resolved | Dismissed | Escalated

  datatype ReportSeverity = Low | Medium | High | Critical

  /** The fields of a report that the safety score reads. */
  datatype ReportEntry = ReportEntry(reportedUser: Option<UserId>, status: ReportStatus, severity: ReportSeverity, reportedAt: Time)

  class SafetyReport {
    var reporter: UserId
    var reportedUser: Option<UserId>
    var status: ReportStatus
    var severity: ReportSeverity
    var description: string
    var reportedAt: Time
    var resolvedAt: Option<Time>
    var resolver: Option<UserId>
    var resolutionNotes: Option<string>
    var actionTaken: Option<string>
    var followUpRequired: bool
    var followUpDate: Option<Time>
    var escalatedTo: Option<string>

    /** A new report as onCreate leaves it: PENDING, MEDIUM when no severity was given. */
    constructor (reporterId: UserId, about: Option<UserId>, sev: Option<ReportSeverity>, text: string, now: Time)
      ensures reporter == reporterId && reportedUser == about && description == text && reportedAt == now
      ensures status == Pending && severity == (if sev.Some? then sev.value else Medium)
      ensures resolvedAt == None && resolver == None && escalatedTo == None && !followUpRequired
    {
      reporter := reporterId;
      reportedUser := about;
      status := Pending;
      severity := if sev.Some? then sev.value else Medium;
      description := text;
      reportedAt := now;
      resolvedAt := None;
      resolver := None;
      resolutionNotes := None;
      actionTaken := None;
      followUpRequired := false;
      followUpDate := None;
      escalatedTo := None;
    }

    function Entry(): (e: ReportEntry)
      reads this
      ensures e.reportedUser == reportedUser && e.status == status && e.severity == severity && e.reportedAt == reportedAt
    {
      ReportEntry(reportedUser, status, severity, reportedAt)
    }

    /** markUnderReview: only a PENDING report moves to UNDER_REVIEW. */
    method MarkUnderReview()
      modifies this`status
      ensures status == (if old(status) == Pending then UnderReview else old(status))
    {
      if status == Pending {
        status := UnderReview;
      }
    }

    /** resolve: RESOLVED, with the resolver, notes and action taken, from any status. */
    method Resolve(actor: UserId, notes: string, action: string, now: Time)
      modifies this`status, this`resolver, this`resolutionNotes, this`actionTaken, this`resolvedAt
      ensures status == Resolved && resolver == Some(actor) && resolutionNotes == Some(notes)
      ensures actionTaken == Some(action) && resolvedAt == Some(now)
    {
      status := Resolved;
      resolver := Some(actor);
      resolutionNotes := Some(notes);
      actionTaken := Some(action);
      resolvedAt := Some(now);
    }

    /** dismiss: DISMISSED, with the resolver and notes, from any status. */
    method Dismiss(actor: UserId, notes: string, now: Time)
      modifies this`status, this`resolver, this`resolutionNotes, this`resolvedAt
      ensures status == Dismissed && resolver == Some(actor) && resolutionNotes == Some(notes) && resolvedAt == Some(now)
    {
      status := Dismissed;
      resolver := Some(actor);
      resolutionNotes := Some(notes);
      resolvedAt := Some(now);
    }

    /** escalate: ESCALATED to the given address, from any status. */
    method Escalate(to: string)
      modifies this`status, this`escalatedTo
      ensures status == Escalated && escalatedTo == Some(to)
    {
      status := Escalated;
      escalatedTo := Some(to);
    }

    /** requiresFollowUp: flagged, with a follow-up date already past. */
    predicate RequiresFollowUp(now: Time)
      reads this
    {
      followUpRequired && followUpDate.Some? && followUpDate.value < now
    }

    /** getAgeInHours */
    function AgeInHours(now: Time): (r: int)
      reads this
      ensures reportedAt <= now ==> r >= 0 && r * SecondsPerHour <= now - reportedAt < (r + 1) * SecondsPerHour
    {
      DurationIn(reportedAt, now, SecondsPerHour)
    }
  }
}
