/**
 * The data layer (src/data/dataLayer.ts): companies, assessments and settings
 * held in a key-value store. Each store key becomes a field of `Store`; a key
 * that was never written reads as an empty list (companies, assessments) or
 * as no settings at all.
 */
module DataLayer {
  import opened Types
  import Seqs

  /** The settings `getSettings` reports when none were ever saved. */
  const DefaultSettings: AppSettings := AppSettings(A, "1.0.0")

  function AssessmentId(a: Assessment): string { a.id }

  function CompanyId(c: Company): string { c.id }

  /** The first position whose record carries identifier `id`, or none. */
  function FindIndex<T>(s: seq<T>, idOf: T -> string, id: string): (r: Option<nat>)
    ensures r.None? <==> forall i :: 0 <= i < |s| ==> idOf(s[i]) != id
    ensures r.Some? ==> r.value < |s| && idOf(s[r.value]) == id
    ensures r.Some? ==> forall j :: 0 <= j < r.value ==> idOf(s[j]) != id
  {
    if s == [] then None
    else if idOf(s[0]) == id then Some(0)
    else match FindIndex(s[1..], idOf, id)
      case None => None
      case Some(k) => Some(k + 1)
  }

  /** A record appended behind every record with the same identifier is found at the end. */
  lemma {:induction false} FindIndexAppend<T>(s: seq<T>, x: T, idOf: T -> string)
    requires forall i :: 0 <= i < |s| ==> idOf(s[i]) != idOf(x)
    ensures FindIndex(s + [x], idOf, idOf(x)) == Some(|s|)
  {
    if s != [] {
      assert (s + [x])[1..] == s[1..] + [x];
      FindIndexAppend(s[1..], x, idOf);
    }
  }

  /** The patch's value when present, the record's otherwise (a required field). */
  function Take<T>(update: Option<T>, current: T): T
  {
    if update.Some? then update.value else current
  }

  /** The patch's value when present, the record's otherwise (an optional field). */
  function Override<T>(update: Option<T>, current: Option<T>): Option<T>
  {
    if update.Some? then update else current
  }

  /** Object spread of a patch over a record: every field present in the patch replaces the record's, every other is kept. */
  function Merge(a: Assessment, p: AssessmentPatch): (r: Assessment)
    ensures p.id.Some? ==> r.id == p.id.value
    ensures p.id.None? ==> r.id == a.id
    ensures p.companyId.Some? ==> r.companyId == p.companyId.value
    ensures p.companyId.None? ==> r.companyId == a.companyId
    ensures p.name.Some? ==> r.name == p.name.value
    ensures p.name.None? ==> r.name == a.name
    ensures p.notes.Some? ==> r.notes == p.notes.value
    ensures p.notes.None? ==> r.notes == a.notes
    ensures p.riskFactors.Some? ==> r.riskFactors == p.riskFactors.value
    ensures p.riskFactors.None? ==> r.riskFactors == a.riskFactors
    ensures p.country.Some? ==> r.country == p.country.value
    ensures p.country.None? ==> r.country == a.country
    ensures p.revenueBand.Some? ==> r.revenueBand == p.revenueBand.value
    ensures p.revenueBand.None? ==> r.revenueBand == a.revenueBand
    ensures p.status.Some? ==> r.status == p.status.value
    ensures p.status.None? ==> r.status == a.status
    ensures p.createdAt.Some? ==> r.createdAt == p.createdAt.value
    ensures p.createdAt.None? ==> r.createdAt == a.createdAt
    ensures p.scoredAt.Some? ==> r.scoredAt == p.scoredAt
    ensures p.scoredAt.None? ==> r.scoredAt == a.scoredAt
    ensures p.riskScore.Some? ==> r.riskScore == p.riskScore
    ensures p.riskScore.None? ==> r.riskScore == a.riskScore
    ensures p.riskTier.Some? ==> r.riskTier == p.riskTier
    ensures p.riskTier.None? ==> r.riskTier == a.riskTier
    ensures p.reasons.Some? ==> r.reasons == p.reasons
    ensures p.reasons.None? ==> r.reasons == a.reasons
    ensures p.redFlags.Some? ==> r.redFlags == p.redFlags
    ensures p.redFlags.None? ==> r.redFlags == a.redFlags
  {
    Assessment(
      Take(p.id, a.id),
      Take(p.companyId, a.companyId),
      Take(p.name, a.name),
      Take(p.notes, a.notes),
      Take(p.riskFactors, a.riskFactors),
      Take(p.country, a.country),
      Take(p.revenueBand, a.revenueBand),
      Take(p.status, a.status),
      Take(p.createdAt, a.createdAt),
      Override(p.scoredAt, a.scoredAt),
      Override(p.riskScore, a.riskScore),
      Override(p.riskTier, a.riskTier),
      Override(p.reasons, a.reasons),
      Override(p.redFlags, a.redFlags))
  }

  /** An empty patch changes nothing, and applying a patch twice is applying it once. */
  lemma MergeIdentityAndIdempotence(a: Assessment, p: AssessmentPatch)
    ensures Merge(a, EmptyPatch) == a
    ensures Merge(Merge(a, p), p) == Merge(a, p)
  {
  }

  /**
   * The assessment list after `updateAssessment(id, updates)`: the first record
   * with that identifier is merged with the patch; without such a record the
   * list is unchanged.
   */
  function UpdatedList(s: seq<Assessment>, id: string, updates: AssessmentPatch): (r: seq<Assessment>)
    ensures |r| == |s|
    ensures FindIndex(s, AssessmentId, id).None? ==> r == s
    ensures FindIndex(s, AssessmentId, id).Some? ==>
      var k := FindIndex(s, AssessmentId, id).value;
      && s[k].id == id
      && (forall j :: 0 <= j < k ==> s[j].id != id)
      && r[k] == Merge(s[k], updates)
      && (forall j :: 0 <= j < |s| && j != k ==> r[j] == s[j])
  {
    match FindIndex(s, AssessmentId, id)
    case None => s
    case Some(k) => s[k := Merge(s[k], updates)]
  }

  /** A patch that leaves the identifier alone keeps the updated record where a lookup finds it. */
  lemma UpdateKeepsLookup(s: seq<Assessment>, id: string, updates: AssessmentPatch)
    requires updates.id.None? || updates.id == Some(id)
    ensures FindIndex(UpdatedList(s, id, updates), AssessmentId, id) == FindIndex(s, AssessmentId, id)
  {
    var r := UpdatedList(s, id, updates);
    match FindIndex(s, AssessmentId, id)
    case None =>
    case Some(k) =>
      assert AssessmentId(r[k]) == id;
      var f := FindIndex(r, AssessmentId, id);
      assert f.Some? && f.value == k;
  }

  class Store {
    var companies: seq<Company>
    var assessments: seq<Assessment>
    var settings: Option<AppSettings>
    /** The demo companies of each dataset version (`getSeedCompanies`). */
    const seed: DatasetVersion -> seq<Company>

    /** A store on which nothing was ever written. */
    constructor (seed: DatasetVersion -> seq<Company>)
      ensures companies == [] && assessments == [] && settings == None
      ensures this.seed == seed
    {
      companies := [];
      assessments := [];
      settings := None;
      this.seed := seed;
    }

    method SetCompanies(cs: seq<Company>)
      modifies this
      ensures companies == cs
      ensures assessments == old(assessments) && settings == old(settings)
    {
      companies := cs;
    }

    /** The first company with identifier `id`, or none. */
    function GetCompanyById(id: string): (r: Option<Company>)
      reads this
      ensures r.None? <==> forall i :: 0 <= i < |companies| ==> companies[i].id != id
      ensures r.Some? ==> r.value.id == id
      ensures r.Some? ==>
        exists k :: 0 <= k < |companies| && companies[k] == r.value && forall j :: 0 <= j < k ==> companies[j].id != id
    {
      match FindIndex(companies, CompanyId, id)
      case None => None
      case Some(k) => Some(companies[k])
    }

    /** The first assessment with identifier `id`, or none. */
    function GetAssessmentById(id: string): (r: Option<Assessment>)
      reads this
      ensures r.None? <==> forall i :: 0 <= i < |assessments| ==> assessments[i].id != id
      ensures r.Some? ==> r.value.id == id
      ensures r.Some? ==>
        exists k :: 0 <= k < |assessments| && assessments[k] == r.value && forall j :: 0 <= j < k ==> assessments[j].id != id
    {
      match FindIndex(assessments, AssessmentId, id)
      case None => None
      case Some(k) => Some(assessments[k])
    }

    /** The assessments of one company, in stored order. */
    function GetAssessmentsByCompany(companyId: string): (r: seq<Assessment>)
      reads this
      ensures Seqs.IsSubsequence(r, assessments)
      ensures forall i :: 0 <= i < |r| ==> r[i].companyId == companyId
      ensures forall i :: 0 <= i < |assessments| && assessments[i].companyId == companyId ==> assessments[i] in r
      ensures forall a :: multiset(r)[a] == if a.companyId == companyId then multiset(assessments)[a] else 0
    {
      var keep := (a: Assessment) => a.companyId == companyId;
      Seqs.FilterIsSubsequence(assessments, keep);
      assert forall a :: multiset(Seqs.Filter(assessments, keep))[a] == if keep(a) then multiset(assessments)[a] else 0 by {
        forall a ensures multiset(Seqs.Filter(assessments, keep))[a] == if keep(a) then multiset(assessments)[a] else 0 {
          Seqs.FilterMultiset(assessments, keep, a);
        }
      }
      Seqs.Filter(assessments, keep)
    }

    function GetSettings(): (r: AppSettings)
      reads this
      ensures settings.None? ==> r.datasetVersion == A && r.appVersion == "1.0.0"
      ensures settings.Some? ==> r == settings.value
    {
      if settings.None? then DefaultSettings else settings.value
    }

    method CreateAssessment(a: Assessment)
      modifies this
      ensures assessments == old(assessments) + [a]
      ensures companies == old(companies) && settings == old(settings)
    {
      assessments := assessments + [a];
    }

    method UpdateAssessment(id: string, updates: AssessmentPatch)
      modifies this
      ensures assessments == UpdatedList(old(assessments), id, updates)
      ensures companies == old(companies) && settings == old(settings)
    {
      var index := FindIndex(assessments, AssessmentId, id);
      if index.Some? {
        assessments := assessments[index.value := Merge(assessments[index.value], updates)];
      }
    }

    /**
     * Reseeds the companies of the chosen dataset version (by default the one
     * in the settings), drops every assessment and records the version.
     */
    method ResetDemoData(datasetVersion: Option<DatasetVersion>)
      modifies this
      ensures var v := if datasetVersion.Some? then datasetVersion.value else old(GetSettings()).datasetVersion;
        && companies == seed(v)
        && assessments == []
        && settings == Some(old(GetSettings()).(datasetVersion := v))
    {
      var version := if datasetVersion.Some? then datasetVersion.value else GetSettings().datasetVersion;
      companies := seed(version);
      assessments := [];
      settings := Some(GetSettings().(datasetVersion := version));
    }

    /** On first load (no companies), reseeds with dataset version A; otherwise changes nothing. */
    method InitializeData()
      modifies this
      ensures old(companies) == [] ==>
        && companies == seed(A)
        && assessments == []
        && settings == Some(old(GetSettings()).(datasetVersion := A))
      ensures old(companies) != [] ==>
        companies == old(companies) && assessments == old(assessments) && settings == old(settings)
    {
      if |companies| == 0 {
        ResetDemoData(Some(A));
      }
    }
  }
}
