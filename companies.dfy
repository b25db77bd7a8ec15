/**
 * The company search of the companies screen (src/screens/Companies.tsx): a
 * case-insensitive substring match over name, industry, country and region.
 */
module Companies {
  import opened Types
  import opened Text
  import Seqs

  /** `term` (already lower-cased) occurs in one of the four searchable fields, compared lower-cased. */
  predicate Matches(c: Company, term: string)
  {
    || Contains(Lower(c.name), term)
    || Contains(Lower(c.industry), term)
    || Contains(Lower(c.country), term)
    || Contains(Lower(c.region), term)
  }

  /** The companies shown for a search term; an empty term shows them all. */
  function FilterCompanies(companies: seq<Company>, searchTerm: string): (r: seq<Company>)
    ensures searchTerm == [] ==> r == companies
    ensures |r| <= |companies|
    ensures Seqs.IsSubsequence(r, companies)
    ensures searchTerm != [] ==> forall i :: 0 <= i < |r| ==> Matches(r[i], Lower(searchTerm))
    ensures searchTerm != [] ==>
      forall i :: 0 <= i < |companies| && Matches(companies[i], Lower(searchTerm)) ==> companies[i] in r
    ensures searchTerm != [] ==>
      forall c :: multiset(r)[c] == if Matches(c, Lower(searchTerm)) then multiset(companies)[c] else 0
  {
    if searchTerm == [] then
      Seqs.SubsequenceReflexive(companies);
      companies
    else
      var keep := (c: Company) => Matches(c, Lower(searchTerm));
      Seqs.FilterIsSubsequence(companies, keep);
      assert forall c :: multiset(Seqs.Filter(companies, keep))[c] == if keep(c) then multiset(companies)[c] else 0 by {
        forall c ensures multiset(Seqs.Filter(companies, keep))[c] == if keep(c) then multiset(companies)[c] else 0 {
          Seqs.FilterMultiset(companies, keep, c);
        }
      }
      Seqs.Filter(companies, keep)
  }

  /** A company is shown exactly when one of its four fields contains the term, ignoring ASCII case. */
  lemma ShownIff(companies: seq<Company>, searchTerm: string, c: Company)
    requires searchTerm != []
    ensures c in FilterCompanies(companies, searchTerm) <==>
      && c in companies
      && (|| Contains(Lower(c.name), Lower(searchTerm))
          || Contains(Lower(c.industry), Lower(searchTerm))
          || Contains(Lower(c.country), Lower(searchTerm))
          || Contains(Lower(c.region), Lower(searchTerm)))
  {
    var r := FilterCompanies(companies, searchTerm);
    if c in r {
      var i :| 0 <= i < |r| && r[i] == c;
      assert Matches(r[i], Lower(searchTerm));
      assert c in companies by {
        Seqs.SubsequenceMembers(r, companies, i);
      }
    }
    if c in companies && Matches(c, Lower(searchTerm)) {
      var i :| 0 <= i < |companies| && companies[i] == c;
      assert companies[i] in r;
    }
  }

  /** Search terms that differ only in letter case show the same companies. */
  lemma SearchIgnoresCase(companies: seq<Company>, t1: string, t2: string)
    requires SameUpToCase(t1, t2)
    ensures FilterCompanies(companies, t1) == FilterCompanies(companies, t2)
  {
    SameUpToCaseLower(t1, t2);
  }

  /**
   * Searching for a company's own name, in any letter case, shows that
   * company; an empty name is the empty term, which shows every company.
   */
  lemma FieldValueFindsCompany(companies: seq<Company>, k: nat, t: string)
    requires k < |companies| && SameUpToCase(t, companies[k].name)
    ensures companies[k] in FilterCompanies(companies, t)
  {
    if t != [] {
      var c := companies[k];
      var l := Lower(c.name);
      SameUpToCaseLower(t, c.name);
      assert l[0..|l|] == l;
      assert OccursAt(Lower(c.name), Lower(t), 0);
    }
  }
}
