// The quality score of a mentor's response: five factors with fixed
// weights, summed, capped at 100 and graded.

module ResponseServiceModel {
  import opened Common
  import VQR = VisualQueryResponseModel

  /** The parts of a stored response that the score reads. */
  datatype ResponseFacts = ResponseFacts(
    content: Option<string>,
    isSolution: bool,
    helpfulVotes: nat,
    notHelpfulVotes: nat,
    mentorRating: int,
    mediaCount: nat)

  /** The "score", "grade" and "factors" entries of the result map. */
  datatype Quality = Quality(score: int, grade: string, factors: seq<string>)

  const FactorNames: seq<string> := ["content", "solution", "helpfulness", "rating", "media"]
  const Weights: seq<int> := [25, 30, 20, 15, 10]

  /** For each factor, in the order of FactorNames, whether the response earns it. */
  function Flags(r: ResponseFacts): (f: seq<bool>)
    ensures |f| == |Weights|
    ensures f[0] <==> r.content.Some? && Utf16Length(r.content.value) > 100
    ensures f[1] <==> r.isSolution
    ensures f[2] <==> VQR.RatioAtLeastEighty(r.helpfulVotes, r.notHelpfulVotes)
    ensures f[3] <==> r.mentorRating >= 4
    ensures f[4] <==> r.mediaCount > 0
  {
    [r.content.Some? && Utf16Length(r.content.value) > 100,
     r.isSolution,
     VQR.RatioAtLeastEighty(r.helpfulVotes, r.notHelpfulVotes),
     r.mentorRating >= 4,
     r.mediaCount > 0]
  }

  /** The sum of the weights whose flag is set: the reference definition of the score. */
  function Earned(flags: seq<bool>, weights: seq<int>): int
    requires |flags| == |weights|
    decreases |flags|
  {
    if flags == [] then 0
    else Earned(flags[..|flags| - 1], weights[..|weights| - 1]) + (if flags[|flags| - 1] then weights[|weights| - 1] else 0)
  }

  function Total(weights: seq<int>): int
    decreases |weights|
  {
    if weights == [] then 0 else Total(weights[..|weights| - 1]) + weights[|weights| - 1]
  }

  /** With non-negative weights the earned sum lies between 0 and the sum of all weights. */
  lemma {:induction false} EarnedBounds(flags: seq<bool>, weights: seq<int>)
    requires |flags| == |weights|
    requires forall i :: 0 <= i < |weights| ==> weights[i] >= 0
    ensures 0 <= Earned(flags, weights) <= Total(weights)
    decreases |flags|
  {
    if flags != [] {
      EarnedBounds(flags[..|flags| - 1], weights[..|weights| - 1]);
    }
  }

  /** Earning one more factor adds exactly that factor's weight. */
  lemma {:induction false} FactorAddsItsWeight(flags: seq<bool>, weights: seq<int>, i: int)
    requires |flags| == |weights| && 0 <= i < |flags| && !flags[i]
    ensures Earned(flags[i := true], weights) == Earned(flags, weights) + weights[i]
    decreases |flags|
  {
    var n := |flags| - 1;
    if i < n {
      assert flags[i := true][..n] == flags[..n][i := true];
      FactorAddsItsWeight(flags[..n], weights[..n], i);
    } else {
      assert flags[i := true][..n] == flags[..n];
    }
  }

  function Bit(flag: bool, weight: int): int {
    if flag then weight else 0
  }

  /** Taking one more factor adds that factor's weight, if earned, to the sum. */
  lemma EarnedOfPrefix(flags: seq<bool>, weights: seq<int>, n: int)
    requires |flags| == |weights| && 0 < n <= |flags|
    ensures Earned(flags[..n], weights[..n]) == Earned(flags[..n - 1], weights[..n - 1]) + Bit(flags[n - 1], weights[n - 1])
    ensures Total(weights[..n]) == Total(weights[..n - 1]) + weights[n - 1]
  {
    assert flags[..n][..n - 1] == flags[..n - 1];
    assert weights[..n][..n - 1] == weights[..n - 1];
  }

  /** Five factors, unfolded: the earned sum is the weight of each set flag, added in order. */
  lemma EarnedOfFive(flags: seq<bool>, weights: seq<int>)
    requires |flags| == |weights| == 5
    ensures Earned(flags, weights) == Bit(flags[0], weights[0]) + Bit(flags[1], weights[1]) + Bit(flags[2], weights[2])
                                      + Bit(flags[3], weights[3]) + Bit(flags[4], weights[4])
    ensures Total(weights) == weights[0] + weights[1] + weights[2] + weights[3] + weights[4]
  {
    assert flags[..0] == [] && weights[..0] == [];
    EarnedOfPrefix(flags, weights, 1);
    EarnedOfPrefix(flags, weights, 2);
    EarnedOfPrefix(flags, weights, 3);
    EarnedOfPrefix(flags, weights, 4);
    EarnedOfPrefix(flags, weights, 5);
    assert flags[..5] == flags && weights[..5] == weights;
  }

  /** The five weights add up to 100, so the cap at 100 never takes effect. */
  lemma WeightsTotalHundred()
    ensures Total(Weights) == 100
  {
    EarnedOfFive([false, false, false, false, false], Weights);
  }

  /** The grade: A from 80, B from 60, C below. */
  function Grade(score: int): (g: string)
    ensures g == "A" <==> score >= 80
    ensures g == "B" <==> 60 <= score < 80
    ensures g == "C" <==> score < 60
  {
    if score >= 80 then "A" else if score >= 60 then "B" else "C"
  }

  /** The score of a response, stated through the reference sum. */
  function QualityOf(r: ResponseFacts): (q: Quality)
    ensures 0 <= q.score <= 100
    ensures q.score == Earned(Flags(r), Weights)
    ensures q.grade == Grade(q.score) && q.factors == FactorNames
  {
    EarnedBounds(Flags(r), Weights);
    WeightsTotalHundred();
    Quality(Min(100, Earned(Flags(r), Weights)), Grade(Earned(Flags(r), Weights)), FactorNames)
  }

  /**
   * getResponseQualityScore: an empty result for a missing response;
   * otherwise the score built up factor by factor.
   */
  method GetResponseQualityScore(responses: map<nat, ResponseFacts>, responseId: nat) returns (q: Option<Quality>)
    ensures responseId !in responses ==> q.None?
    ensures responseId in responses ==> q == Some(QualityOf(responses[responseId]))
  {
    if responseId !in responses {
      return None;
    }
    var response := responses[responseId];
    var score := 0;
    if response.content.Some? && Utf16Length(response.content.value) > 100 {
      score := score + 25;
    }
    if response.isSolution {
      score := score + 30;
    }
    if VQR.RatioAtLeastEighty(response.helpfulVotes, response.notHelpfulVotes) {
      score := score + 20;
    }
    if response.mentorRating >= 4 {
      score := score + 15;
    }
    if response.mediaCount > 0 {
      score := score + 10;
    }
    EarnedOfFive(Flags(response), Weights);
    var grade := if score >= 80 then "A" else if score >= 60 then "B" else "C";
    q := Some(Quality(Min(100, score), grade, FactorNames));
  }
}
