/**
 * The list logic of the new-assessment form (src/screens/NewAssessment.tsx):
 * toggling a risk-factor checkbox, and the record the form submits.
 */
module NewAssessment {
  import opened Types
  import Seqs
  import DataLayer

  /** The selection with every occurrence of `factor` dropped, the rest in order. */
  function Without(prev: seq<string>, factor: string): seq<string>
  {
    Seqs.Filter(prev, (f: string) => f != factor)
  }

  /** A checked factor is unchecked (all its occurrences removed); an unchecked one is appended. */
  function ToggleRiskFactor(prev: seq<string>, factor: string): (r: seq<string>)
    ensures factor !in prev ==> r == prev + [factor]
    ensures factor in prev ==> factor !in r && Seqs.IsSubsequence(r, prev)
    ensures factor in r <==> factor !in prev
    ensures forall i :: 0 <= i < |prev| && prev[i] != factor ==> prev[i] in r
    ensures forall i :: 0 <= i < |r| && r[i] != factor ==> r[i] in prev
    ensures factor in prev ==> forall f :: multiset(r)[f] == if f == factor then 0 else multiset(prev)[f]
  {
    if factor in prev then
      var keep := (f: string) => f != factor;
      Seqs.FilterIsSubsequence(prev, keep);
      assert forall f :: multiset(Without(prev, factor))[f] == if keep(f) then multiset(prev)[f] else 0 by {
        forall f ensures multiset(Without(prev, factor))[f] == if keep(f) then multiset(prev)[f] else 0 {
          Seqs.FilterMultiset(prev, keep, f);
        }
      }
      Without(prev, factor)
    else prev + [factor]
  }

  /** Toggling leaves the other factors, and their order, exactly as they were. */
  lemma ToggleKeepsOthers(prev: seq<string>, factor: string)
    ensures Without(ToggleRiskFactor(prev, factor), factor) == Without(prev, factor)
  {
    var keep := (f: string) => f != factor;
    if factor in prev {
      Seqs.FilterAllKept(Without(prev, factor), keep);
    } else {
      Seqs.FilterAppend(prev, [factor], keep);
    }
  }

  /** Checking and unchecking a factor that was not selected restores the selection. */
  lemma ToggleTwiceRestores(prev: seq<string>, factor: string)
    requires factor !in prev
    ensures ToggleRiskFactor(ToggleRiskFactor(prev, factor), factor) == prev
  {
    var keep := (f: string) => f != factor;
    Seqs.FilterAppend(prev, [factor], keep);
    Seqs.FilterAllKept(prev, keep);
  }

  /** A selection without repeats stays without repeats. */
  lemma ToggleKeepsDistinct(prev: seq<string>, factor: string)
    requires Seqs.Distinct(prev)
    ensures Seqs.Distinct(ToggleRiskFactor(prev, factor))
  {
    if factor in prev {
      Seqs.FilterKeepsDistinct(prev, (f: string) => f != factor);
    }
  }

  /** The record `handleSubmit` builds: status `Open`, no scoring fields, the form's selection. */
  function SubmittedAssessment(
    id: string, companyId: string, name: string, notes: string,
    riskFactors: seq<string>, country: string, revenueBand: string, createdAt: string): (r: Assessment)
    ensures r.status == Open
    ensures r.scoredAt.None? && r.riskScore.None? && r.riskTier.None? && r.reasons.None? && r.redFlags.None?
    ensures r.riskFactors == riskFactors && r.country == country && r.revenueBand == revenueBand
    ensures r.id == id && r.companyId == companyId && r.name == name && r.notes == notes && r.createdAt == createdAt
  {
    Assessment(id, companyId, name, notes, riskFactors, country, revenueBand, Open, createdAt, None, None, None, None, None)
  }

  /**
   * Submitting the form stores the new open assessment behind the existing
   * ones. The identifier and creation time come from the caller's clock.
   */
  method Submit(
    store: DataLayer.Store, id: string, company: Company, name: string, notes: string,
    riskFactors: seq<string>, country: string, revenueBand: string, createdAt: string)
    modifies store
    ensures store.assessments
      == old(store.assessments) + [SubmittedAssessment(id, company.id, name, notes, riskFactors, country, revenueBand, createdAt)]
    ensures store.companies == old(store.companies) && store.settings == old(store.settings)
  {
    var assessment := SubmittedAssessment(id, company.id, name, notes, riskFactors, country, revenueBand, createdAt);
    store.CreateAssessment(assessment);
  }
}
