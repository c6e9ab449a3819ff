// Moderation of safety reports and the safety score of a reported user.

module SafetyServiceModel {
  import opened Common
  import opened SafetyReportModel

  const RecentDays: int := 30
  const ViolationWindowDays: int := 7

  // -------------------------------------------------------------------------
  // Review guards. A report id the repository does not know is passed as null.

  /** markReportUnderReview: false for a missing report or one that is not PENDING. */
  method MarkReportUnderReview(report: SafetyReport?) returns (ok: bool)
    modifies report
    ensures ok <==> report != null && old(report.status) == Pending
    ensures ok ==> report.status == UnderReview && report.resolvedAt == old(report.resolvedAt)
                   && report.resolver == old(report.resolver) && report.resolutionNotes == old(report.resolutionNotes)
                   && report.actionTaken == old(report.actionTaken) && report.escalatedTo == old(report.escalatedTo)
    ensures ok ==> report.reporter == old(report.reporter) && report.reportedUser == old(report.reportedUser)
                   && report.severity == old(report.severity) && report.description == old(report.description)
                   && report.reportedAt == old(report.reportedAt) && report.followUpRequired == old(report.followUpRequired)
                   && report.followUpDate == old(report.followUpDate)
    ensures report != null && !ok ==> unchanged(report)
  {
    if report == null || report.status != Pending {
      return false;
    }
    report.MarkUnderReview();
    return true;
  }

  /** resolveReport: only a report UNDER_REVIEW is resolved. */
  method ResolveReport(report: SafetyReport?, actor: UserId, notes: string, action: string, now: Time) returns (ok: bool)
    modifies report
    ensures ok <==> report != null && old(report.status) == UnderReview
    ensures ok ==> report.status == Resolved && report.resolver == Some(actor)
                   && report.resolutionNotes == Some(notes) && report.actionTaken == Some(action)
                   && report.resolvedAt == Some(now) && report.escalatedTo == old(report.escalatedTo)
    ensures ok ==> report.reporter == old(report.reporter) && report.reportedUser == old(report.reportedUser)
                   && report.severity == old(report.severity) && report.description == old(report.description)
                   && report.reportedAt == old(report.reportedAt) && report.followUpRequired == old(report.followUpRequired)
                   && report.followUpDate == old(report.followUpDate)
    ensures report != null && !ok ==> unchanged(report)
  {
    if report == null || report.status != UnderReview {
      return false;
    }
    report.Resolve(actor, notes, action, now);
    return true;
  }

  /** dismissReport: only a report UNDER_REVIEW is dismissed. */
  method DismissReport(report: SafetyReport?, actor: UserId, notes: string, now: Time) returns (ok: bool)
    modifies report
    ensures ok <==> report != null && old(report.status) == UnderReview
    ensures ok ==> report.status == Dismissed && report.resolver == Some(actor) && report.resolutionNotes == Some(notes)
                   && report.resolvedAt == Some(now) && report.actionTaken == old(report.actionTaken)
                   && report.escalatedTo == old(report.escalatedTo)
    ensures ok ==> report.reporter == old(report.reporter) && report.reportedUser == old(report.reportedUser)
                   && report.severity == old(report.severity) && report.description == old(report.description)
                   && report.reportedAt == old(report.reportedAt) && report.followUpRequired == old(report.followUpRequired)
                   && report.followUpDate == old(report.followUpDate)
    ensures report != null && !ok ==> unchanged(report)
  {
    if report == null || report.status != UnderReview {
      return false;
    }
    report.Dismiss(actor, notes, now);
    return true;
  }

  /** escalateReport: any existing report is escalated. */
  method EscalateReport(report: SafetyReport?, to: string) returns (ok: bool)
    modifies report
    ensures ok <==> report != null
    ensures ok ==> report.status == Escalated && report.escalatedTo == Some(to)
                   && report.resolvedAt == old(report.resolvedAt) && report.resolver == old(report.resolver)
                   && report.resolutionNotes == old(report.resolutionNotes) && report.actionTaken == old(report.actionTaken)
    ensures ok ==> report.reporter == old(report.reporter) && report.reportedUser == old(report.reportedUser)
                   && report.severity == old(report.severity) && report.description == old(report.description)
                   && report.reportedAt == old(report.reportedAt) && report.followUpRequired == old(report.followUpRequired)
                   && report.followUpDate == old(report.followUpDate)
  {
    if report == null {
      return false;
    }
    report.Escalate(to);
    return true;
  }

  // -------------------------------------------------------------------------
  // Safety score

  function BasePenalty(s: ReportSeverity): (p: int)
    ensures s == Low ==> p == 5
    ensures s == Medium ==> p == 15
    ensures s == High ==> p == 30
    ensures s == Critical ==> p == 50
  {
    match s
    case Low => 5
    case Medium => 15
    case High => 30
    case Critical => 50
  }

  /** A report less than 30 whole days old counts as recent. */
  predicate IsRecent(reportedAt: Time, now: Time) {
    DurationIn(reportedAt, now, SecondsPerDay) < RecentDays
  }

  /** The penalty for one resolved report: the base for its severity, times 1.5 truncated when recent. */
  function Penalty(e: ReportEntry, now: Time): (p: int)
    ensures !IsRecent(e.reportedAt, now) ==> p == BasePenalty(e.severity)
    ensures IsRecent(e.reportedAt, now) ==> 2 * p <= 3 * BasePenalty(e.severity) < 2 * p + 2
    ensures IsRecent(e.reportedAt, now) ==> p in {7, 22, 45, 75}
    ensures p >= 5
  {
    var base := BasePenalty(e.severity);
    if IsRecent(e.reportedAt, now) then (base * 3) / 2 else base
  }

  predicate IsResolvedAbout(e: ReportEntry, user: UserId) {
    e.reportedUser == Some(user) && e.status == Resolved
  }

  /** The resolved reports about the user, in repository order. */
  function ResolvedAbout(reports: seq<ReportEntry>, user: UserId): (r: seq<ReportEntry>)
    ensures |r| <= |reports|
    ensures forall k :: 0 <= k < |r| ==> IsResolvedAbout(r[k], user)
    decreases |reports|
  {
    if reports == [] then []
    else
      var last := reports[|reports| - 1];
      ResolvedAbout(reports[..|reports| - 1], user) + (if IsResolvedAbout(last, user) then [last] else [])
  }

  function TotalPenalty(rs: seq<ReportEntry>, now: Time): (n: int)
    ensures n >= 5 * |rs|
    decreases |rs|
  {
    if rs == [] then 0 else TotalPenalty(rs[..|rs| - 1], now) + Penalty(rs[|rs| - 1], now)
  }

  /**
   * getUserSafetyScore: 100 with no resolved reports about the user, else
   * 100 minus the penalties, never below 0.
   */
  function SafetyScore(reports: seq<ReportEntry>, user: UserId, now: Time): (r: int)
    ensures 0 <= r <= 100
    ensures r == 100 <==> ResolvedAbout(reports, user) == []
    ensures ResolvedAbout(reports, user) != [] ==> r <= 95
  {
    var rs := ResolvedAbout(reports, user);
    if rs == [] then 100 else Max(0, 100 - TotalPenalty(rs, now))
  }

  /** getUserSafetyScore, with its loop subtracting one penalty per resolved report. */
  method GetUserSafetyScore(reports: seq<ReportEntry>, user: UserId, now: Time) returns (score: int)
    ensures score == SafetyScore(reports, user, now)
  {
    var resolvedReports := ResolvedAbout(reports, user);
    if resolvedReports == [] {
      return 100;
    }
    score := 100;
    var i := 0;
    while i < |resolvedReports|
      invariant 0 <= i <= |resolvedReports|
      invariant score == 100 - TotalPenalty(resolvedReports[..i], now)
    {
      var report := resolvedReports[i];
      var penalty := BasePenalty(report.severity);
      var daysSinceReport := DurationIn(report.reportedAt, now, SecondsPerDay);
      if daysSinceReport < RecentDays {
        penalty := (penalty * 3) / 2;
      }
      assert resolvedReports[..i + 1][..i] == resolvedReports[..i];
      score := score - penalty;
      i := i + 1;
    }
    assert resolvedReports[..i] == resolvedReports;
    score := Max(0, score);
  }

  /** The total penalty is at least the penalty of any one report in it. */
  lemma {:induction false} PenaltyOfOneIsCounted(rs: seq<ReportEntry>, k: int, now: Time)
    requires 0 <= k < |rs|
    ensures TotalPenalty(rs, now) >= Penalty(rs[k], now)
    decreases |rs|
  {
    if k < |rs| - 1 {
      assert rs[..|rs| - 1][k] == rs[k];
      PenaltyOfOneIsCounted(rs[..|rs| - 1], k, now);
    }
  }

  lemma {:induction false} ResolvedAboutIncludes(reports: seq<ReportEntry>, user: UserId, k: int)
    requires 0 <= k < |reports| && IsResolvedAbout(reports[k], user)
    ensures reports[k] in ResolvedAbout(reports, user)
    decreases |reports|
  {
    if k < |reports| - 1 {
      assert reports[..|reports| - 1][k] == reports[k];
      ResolvedAboutIncludes(reports[..|reports| - 1], user, k);
    }
  }

  /** A further resolved report never raises the score. */
  lemma AnotherReportNeverRaisesScore(reports: seq<ReportEntry>, e: ReportEntry, user: UserId, now: Time)
    ensures SafetyScore(reports + [e], user, now) <= SafetyScore(reports, user, now)
  {
    assert (reports + [e])[..|reports|] == reports;
    var rs := ResolvedAbout(reports, user);
    if IsResolvedAbout(e, user) {
      assert ResolvedAbout(reports + [e], user) == rs + [e];
      assert (rs + [e])[..|rs|] == rs;
      assert TotalPenalty(rs + [e], now) == TotalPenalty(rs, now) + Penalty(e, now);
    } else {
      assert ResolvedAbout(reports + [e], user) == rs;
    }
  }

  /** hasRecentViolations: a resolved report about the user made within the last 7 days. */
  predicate HasRecentViolations(reports: seq<ReportEntry>, user: UserId, now: Time) {
    exists k :: 0 <= k < |reports| && IsResolvedAbout(reports[k], user)
                && reports[k].reportedAt > now - ViolationWindowDays * SecondsPerDay
  }

  /** A user with a recent violation carries at least the recent LOW penalty, so scores 93 or less. */
  lemma RecentViolationLowersScore(reports: seq<ReportEntry>, user: UserId, now: Time)
    requires HasRecentViolations(reports, user, now)
    ensures SafetyScore(reports, user, now) <= 93
  {
    var k :| 0 <= k < |reports| && IsResolvedAbout(reports[k], user)
             && reports[k].reportedAt > now - ViolationWindowDays * SecondsPerDay;
    ResolvedAboutIncludes(reports, user, k);
    var rs := ResolvedAbout(reports, user);
    var j :| 0 <= j < |rs| && rs[j] == reports[k];
    assert IsRecent(reports[k].reportedAt, now);
    PenaltyOfOneIsCounted(rs, j, now);
  }
}
