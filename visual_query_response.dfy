// A mentor's response to a visual query, with the users' helpfulness votes
// and a complexity score.

module VisualQueryResponseModel {
  import opened Common

  datatype ResponseType = Text | Annotated | Video | Audio | Comprehensive

  const HighlyHelpfulPercent: int := 80
  const HighlyHelpfulMinVotes: int := 3

  /**
   * getHelpfulnessRatio >= 80 stated exactly on the counts: helpful / total
   * is at least four fifths. With no votes the ratio is 0.
   */
  predicate RatioAtLeastEighty(helpful: int, notHelpful: int) {
    helpful + notHelpful != 0 && helpful * 100 >= HighlyHelpfulPercent * (helpful + notHelpful)
  }

  /** isHighlyHelpful: a ratio of at least 80 percent over at least 3 votes. */
  predicate IsHighlyHelpful(helpful: int, notHelpful: int) {
    RatioAtLeastEighty(helpful, notHelpful) && helpful + notHelpful >= HighlyHelpfulMinVotes
  }

  /** A highly helpful response is also helpful: strictly more helpful than unhelpful votes. */
  lemma HighlyHelpfulIsHelpful(helpful: nat, notHelpful: nat)
    requires IsHighlyHelpful(helpful, notHelpful)
    ensures helpful > notHelpful && helpful + notHelpful >= 3
  {
  }

  /**
   * getComplexityScore: 1, plus 2 for content over 1000 UTF-16 units or 1
   * over 500, plus up to 3 for media, up to 2 for annotations, plus 2 for a
   * non-blank step-by-step guide, capped at 10.
   */
  function ComplexityScore(content: Option<string>, mediaCount: nat, annotationCount: nat, guide: Option<string>): (r: int)
    ensures 1 <= r <= 10
    ensures r >= 1 + Min(3, mediaCount) + Min(2, annotationCount)
    ensures content.None? && guide.None? ==> r == 1 + Min(3, mediaCount) + Min(2, annotationCount)
  {
    var lengthPoints := if content.Some? && Utf16Length(content.value) > 1000 then 2
                        else if content.Some? && Utf16Length(content.value) > 500 then 1
                        else 0;
    var guidePoints := if guide.Some? && !IsBlank(guide.value) then 2 else 0;
    Min(10, 1 + lengthPoints + Min(3, mediaCount) + Min(2, annotationCount) + guidePoints)
  }

  /** The cap of 10 never takes effect: the largest possible sum is 1 + 2 + 3 + 2 + 2. */
  lemma ComplexityCapNeverBinds(content: string, mediaCount: nat, annotationCount: nat, guide: string)
    requires Utf16Length(content) > 1000 && mediaCount >= 3 && annotationCount >= 2 && !IsBlank(guide)
    ensures ComplexityScore(Some(content), mediaCount, annotationCount, Some(guide)) == 10
  {
  }

  /** Longer content never lowers the complexity score. */
  lemma ComplexityGrowsWithContent(a: string, b: string, mediaCount: nat, annotationCount: nat, guide: Option<string>)
    requires Utf16Length(a) <= Utf16Length(b)
    ensures ComplexityScore(Some(a), mediaCount, annotationCount, guide) <= ComplexityScore(Some(b), mediaCount, annotationCount, guide)
  {
  }

  class VisualQueryResponse {
    var mentor: UserId
    var responseType: ResponseType
    var content: string
    var isSolution: bool
    var isHelpful: bool
    var helpfulVotes: int
    var notHelpfulVotes: int
    var mentorRating: int
    var mentorFeedback: Option<string>

    /**
     * A new response built without votes or a helpful flag, which keep Java's
     * defaults, 0 and false; onCreate does not change values the builder set.
     */
    constructor (author: UserId, kind: ResponseType, text: string, solution: bool)
      ensures mentor == author && responseType == kind && content == text && isSolution == solution
      ensures helpfulVotes == 0 && notHelpfulVotes == 0 && !isHelpful
      ensures isHelpful <==> helpfulVotes > notHelpfulVotes
    {
      mentor := author;
      responseType := kind;
      content := text;
      isSolution := solution;
      isHelpful := false;
      helpfulVotes := 0;
      notHelpfulVotes := 0;
      mentorRating := 0;
      mentorFeedback := None;
    }

    method AddHelpfulVote()
      modifies this`helpfulVotes, this`isHelpful
      ensures helpfulVotes == old(helpfulVotes) + 1
      ensures TotalVotes() == old(TotalVotes()) + 1
      ensures isHelpful <==> helpfulVotes > notHelpfulVotes
    {
      helpfulVotes := helpfulVotes + 1;
      isHelpful := helpfulVotes > notHelpfulVotes;
    }

    method AddNotHelpfulVote()
      modifies this`notHelpfulVotes, this`isHelpful
      ensures notHelpfulVotes == old(notHelpfulVotes) + 1
      ensures TotalVotes() == old(TotalVotes()) + 1
      ensures isHelpful <==> helpfulVotes > notHelpfulVotes
    {
      notHelpfulVotes := notHelpfulVotes + 1;
      isHelpful := helpfulVotes > notHelpfulVotes;
    }

    /** setMentorRating: stored as given, without a range check. */
    method SetMentorRating(rating: int, feedback: string)
      modifies this`mentorRating, this`mentorFeedback
      ensures mentorRating == rating && mentorFeedback == Some(feedback)
    {
      mentorRating := rating;
      mentorFeedback := Some(feedback);
    }

    function TotalVotes(): int
      reads this
    {
      helpfulVotes + notHelpfulVotes
    }

    predicate HighlyHelpful()
      reads this
    {
      IsHighlyHelpful(helpfulVotes, notHelpfulVotes)
    }
  }
}
