/** The records the application stores and passes around (src/types/index.ts). */
module Types {

  datatype Option<+T> = None | Some(value: T)

  /** The four tiers, in increasing severity. */
  datatype RiskTier = Low | Medium | High | Critical

  datatype AssessmentStatus = Open | Scored | Reviewed

  datatype DatasetVersion = A | B

  datatype CompanySize = Small | MediumSize | Large | Enterprise

  datatype Company = Company(
    id: string,
    name: string,
    industry: string,
    region: string,
    size: CompanySize,
    country: string,
    foundedYear: int)

  /**
   * An assessment record. Risk factors and revenue band are kept as the
   * strings the store holds, so that labels outside the enumerations can be
   * scored too (they score 0). The fields that only scoring fills in are
   * optional, as in the source.
   */
  datatype Assessment = Assessment(
    id: string,
    companyId: string,
    name: string,
    notes: string,
    riskFactors: seq<string>,
    country: string,
    revenueBand: string,
    status: AssessmentStatus,
    createdAt: string,
    scoredAt: Option<string>,
    riskScore: Option<int>,
    riskTier: Option<RiskTier>,
    reasons: Option<seq<string>>,
    redFlags: Option<seq<string>>)

  /** `Partial<Assessment>`: every field may be absent. */
  datatype AssessmentPatch = AssessmentPatch(
    id: Option<string>,
    companyId: Option<string>,
    name: Option<string>,
    notes: Option<string>,
    riskFactors: Option<seq<string>>,
    country: Option<string>,
    revenueBand: Option<string>,
    status: Option<AssessmentStatus>,
    createdAt: Option<string>,
    scoredAt: Option<string>,
    riskScore: Option<int>,
    riskTier: Option<RiskTier>,
    reasons: Option<seq<string>>,
    redFlags: Option<seq<string>>)

  datatype ScoringResult = ScoringResult(
    riskScore: int,
    riskTier: RiskTier,
    reasons: seq<string>,
    redFlags: seq<string>)

  datatype AppSettings = AppSettings(datasetVersion: DatasetVersion, appVersion: string)

  /** The patch with no field present. */
  const EmptyPatch := AssessmentPatch(None, None, None, None, None, None, None, None, None, None, None, None, None, None)

  /** The three fields scoring reads. */
  predicate SameScoringInputs(a: Assessment, b: Assessment)
  {
    a.riskFactors == b.riskFactors && a.country == b.country && a.revenueBand == b.revenueBand
  }
}
