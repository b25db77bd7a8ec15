/**
 * How a scoring result is written back onto the stored assessment
 * (src/screens/AssessmentDetail.tsx): the result fields, the scoring time and
 * status `Scored` are applied as one `updateAssessment` patch.
 */
module ScoringFlow {
  import opened Types
  import opened Scoring
  import opened DataLayer

  /** The patch `handleRunScore` hands to `updateAssessment`; `scoredAt` comes from the caller's clock. */
  function ScoringPatch(result: ScoringResult, scoredAt: string): AssessmentPatch
  {
    EmptyPatch.(
      status := Some(Scored),
      scoredAt := Some(scoredAt),
      riskScore := Some(result.riskScore),
      riskTier := Some(result.riskTier),
      reasons := Some(result.reasons),
      redFlags := Some(result.redFlags))
  }

  /**
   * Scoring the stored assessment `id` and writing the result back marks that
   * record `Scored`, fills in every result field, keeps its identity and inputs
   * and leaves every other record alone.
   */
  lemma ScoringWriteBack(s: seq<Assessment>, id: string, scoredAt: string)
    requires FindIndex(s, AssessmentId, id).Some?
    ensures var k := FindIndex(s, AssessmentId, id).value;
      var result := Score(s[k]);
      var r := UpdatedList(s, id, ScoringPatch(result, scoredAt));
      && |r| == |s|
      && r[k].status == Scored
      && r[k].scoredAt == Some(scoredAt)
      && r[k].riskScore == Some(result.riskScore)
      && 0 <= result.riskScore <= 100
      && r[k].riskTier == Some(Tier(result.riskScore))
      && r[k].reasons == Some(result.reasons)
      && r[k].redFlags == Some(result.redFlags)
      && r[k].id == id && r[k].companyId == s[k].companyId && r[k].createdAt == s[k].createdAt
      && SameScoringInputs(r[k], s[k])
      && (forall j :: 0 <= j < |s| && j != k ==> r[j] == s[j])
  {
  }

  /**
   * Scoring an already scored record again, at any later clock value, changes
   * nothing but the scoring time: the engine reads only the inputs, which the
   * write-back keeps. With the same clock value the list is unchanged.
   */
  lemma RescoringIsStable(s: seq<Assessment>, id: string, scoredAt: string, later: string)
    requires FindIndex(s, AssessmentId, id).Some?
    ensures var k := FindIndex(s, AssessmentId, id).value;
      var once := UpdatedList(s, id, ScoringPatch(Score(s[k]), scoredAt));
      var twice := UpdatedList(once, id, ScoringPatch(Score(once[k]), later));
      && twice == once[k := once[k].(scoredAt := Some(later))]
      && (later == scoredAt ==> twice == once)
  {
    var k := FindIndex(s, AssessmentId, id).value;
    var p := ScoringPatch(Score(s[k]), scoredAt);
    var once := UpdatedList(s, id, p);
    assert once == s[k := Merge(s[k], p)];
    UpdateKeepsLookup(s, id, p);
    assert SameScoringInputs(once[k], s[k]);
    ScoreReadsOnlyInputs(once[k], s[k]);
    var p2 := ScoringPatch(Score(once[k]), later);
    assert p2 == p.(scoredAt := Some(later));
    assert Merge(once[k], p2) == once[k].(scoredAt := Some(later));
    assert UpdatedList(once, id, p2) == once[k := once[k].(scoredAt := Some(later))];
    if later == scoredAt {
      assert once[k].(scoredAt := Some(later)) == once[k];
    }
  }
}
