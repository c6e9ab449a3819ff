// Declared moods: validation of the intensity, and the compatibility score
// between two users' moods.

module MoodServiceModel {
  import opened Common
  import opened FriendlyTalkQueueModel

  /** The fields of a mood that compatibility reads. */
  datatype Mood = Mood(user: UserId, moodType: MoodType, intensity: int, lookingForTalk: bool)

  /** setUserMood's guard: an intensity outside 1..10 is refused with an error. */
  function ValidateIntensity(intensity: int): (r: Outcome<int>)
    ensures r.Ok? <==> 1 <= intensity <= 10
    ensures r.Ok? ==> r.value == intensity
    ensures r.Fail? ==> r.message == "Intensity must be between 1 and 10"
  {
    if intensity < 1 || intensity > 10 then Fail("Intensity must be between 1 and 10") else Ok(intensity)
  }

  /** The intensity part of the score: 30 points, minus 3 per point of difference, never below 0. */
  function IntensityPoints(i1: int, i2: int): (r: int)
    ensures 0 <= r <= 30
    ensures r == 30 <==> i1 == i2
    ensures Abs(i1 - i2) >= 10 ==> r == 0
    ensures Abs(i1 - i2) < 10 ==> r == 30 - 3 * Abs(i1 - i2)
  {
    Max(0, 30 - Abs(i1 - i2) * 3)
  }

  /**
   * calculateMoodCompatibility: 50 for the same mood, the intensity points,
   * 20 when both are looking for a talk, capped at 100.
   */
  function MoodCompatibility(m1: Mood, m2: Mood): (r: int)
    ensures 0 <= r <= 100
    ensures m1.moodType != m2.moodType ==> r <= 50
    ensures m1.moodType == m2.moodType ==> r >= 50
  {
    Min(100, (if m1.moodType == m2.moodType then 50 else 0)
             + IntensityPoints(m1.intensity, m2.intensity)
             + (if m1.lookingForTalk && m2.lookingForTalk then 20 else 0))
  }

  /** The score is the same whichever mood comes first. */
  lemma MoodCompatibilityIsSymmetric(m1: Mood, m2: Mood)
    ensures MoodCompatibility(m1, m2) == MoodCompatibility(m2, m1)
  {
  }

  /** areMoodsCompatible: the same mood type, or else a score of at least 70. */
  predicate AreMoodsCompatible(m1: Mood, m2: Mood) {
    m1.moodType == m2.moodType || MoodCompatibility(m1, m2) >= 70
  }

  /**
   * Two different mood types score at most 30 + 20 = 50, below the threshold
   * of 70, so compatibility comes down to having the same mood type.
   */
  lemma CompatibleIffSameType(m1: Mood, m2: Mood)
    ensures AreMoodsCompatible(m1, m2) <==> m1.moodType == m2.moodType
  {
  }
}
