/**
 * The fraud-risk scoring engine (src/data/scoring.ts).
 *
 * `Score` is the reference definition of what an assessment scores: each
 * part of the result is given on its own (factor sum, jurisdiction and
 * severe-combination bonuses, the clamp, the tier, the two lists).
 * `CalculateRiskScore` is the engine as the source writes it, a running total
 * and two lists built step by step, and is proved to compute `Score`.
 */
module Scoring {
  import opened Types
  import opened Text
  import Seqs

  const HighRiskCountries: seq<string> :=
    ["Cayman Islands", "British Virgin Islands", "Panama", "Cyprus", "Malta", "Seychelles"]

  const RiskFactorScores: map<string, nat> := map[
    "Complex Ownership" := 15,
    "High Cash Transactions" := 20,
    "Offshore Entities" := 25,
    "Rapid Growth" := 10,
    "Regulatory Issues" := 30,
    "Related Party Transactions" := 15,
    "Unusual Revenue Patterns" := 20
  ]

  const RevenueBandScores: map<string, nat> := map[
    "< $1M" := 5,
    "$1M - $10M" := 10,
    "$10M - $100M" := 15,
    "$100M - $1B" := 10,
    "> $1B" := 5
  ]

  /** The factors whose joint presence raises the severe-combination flag. */
  const SevereFactorNames: seq<string> := ["Regulatory Issues", "Offshore Entities", "High Cash Transactions"]

  const JurisdictionBonus: nat := 20
  const SevereBonus: nat := 10
  const ScoreCap: nat := 100

  const SevereFlag: string := "Multiple severe risk factors identified"

  // ---------------------------------------------------------------------------
  // Lookups and the strings the engine emits

  /** The points of a factor; a label outside the table scores 0. */
  function FactorPoints(factor: string): nat
  {
    if factor in RiskFactorScores then RiskFactorScores[factor] else 0
  }

  /** The points of a revenue band; a label outside the table scores 0. */
  function BandPoints(band: string): nat
  {
    if band in RevenueBandScores then RevenueBandScores[band] else 0
  }

  predicate IsHighRiskCountry(country: string)
  {
    country in HighRiskCountries
  }

  predicate IsSevere(factor: string)
  {
    factor in SevereFactorNames
  }

  function FactorReason(factor: string): string
  {
    factor + " (+" + NatToString(FactorPoints(factor)) + " points)"
  }

  function BandReason(band: string): string
  {
    "Revenue band " + band + " (+" + NatToString(BandPoints(band)) + " points)"
  }

  function JurisdictionFlag(country: string): string
  {
    "Operations in high-risk jurisdiction: " + country
  }

  // ---------------------------------------------------------------------------
  // The reference definition

  /** The points of all factors, each occurrence counted. */
  function FactorSum(factors: seq<string>): nat
  {
    Seqs.Sum(factors, FactorPoints)
  }

  /** The severe entries of `factors`, duplicates kept (the source's `filter`). */
  function SevereFactors(factors: seq<string>): seq<string>
  {
    Seqs.Filter(factors, IsSevere)
  }

  predicate HasSevereCombination(factors: seq<string>)
  {
    |SevereFactors(factors)| >= 2
  }

  /** The total before the cap: every addition the engine makes. */
  function Unclamped(a: Assessment): nat
  {
    FactorSum(a.riskFactors)
    + (if IsHighRiskCountry(a.country) then JurisdictionBonus else 0)
    + BandPoints(a.revenueBand)
    + (if HasSevereCombination(a.riskFactors) then SevereBonus else 0)
  }

  /** The tier thresholds, applied to a capped score. */
  function Tier(score: int): RiskTier
  {
    if score >= 75 then Critical
    else if score >= 50 then High
    else if score >= 25 then Medium
    else Low
  }

  /** The position of a tier in the order Low < Medium < High < Critical. */
  function TierRank(t: RiskTier): nat
  {
    match t
    case Low => 0
    case Medium => 1
    case High => 2
    case Critical => 3
  }

  function FactorReasons(factors: seq<string>): seq<string>
  {
    seq(|factors|, i requires 0 <= i < |factors| => FactorReason(factors[i]))
  }

  function Reasons(a: Assessment): seq<string>
  {
    FactorReasons(a.riskFactors) + [BandReason(a.revenueBand)]
  }

  function RedFlags(a: Assessment): seq<string>
  {
    (if IsHighRiskCountry(a.country) then [JurisdictionFlag(a.country)] else [])
    + (if HasSevereCombination(a.riskFactors) then [SevereFlag] else [])
  }

  /** The total, clamped from above at 100. */
  function Cap(total: nat): nat
  {
    if total < ScoreCap then total else ScoreCap
  }

  function Score(a: Assessment): ScoringResult
  {
    var score := Cap(Unclamped(a));
    ScoringResult(score, Tier(score), Reasons(a), RedFlags(a))
  }

  // ---------------------------------------------------------------------------
  // The engine

  method CalculateRiskScore(a: Assessment) returns (r: ScoringResult)
    ensures r == Score(a)
    ensures 0 <= r.riskScore <= ScoreCap
    ensures |r.reasons| == |a.riskFactors| + 1
  {
    var score: nat := 0;
    var reasons: seq<string> := [];
    var redFlags: seq<string> := [];

    for i := 0 to |a.riskFactors|
      invariant score == FactorSum(a.riskFactors[..i])
      invariant |reasons| == i
      invariant forall k :: 0 <= k < i ==> reasons[k] == FactorReason(a.riskFactors[k])
    {
      var factor := a.riskFactors[i];
      var points := FactorPoints(factor);
      assert a.riskFactors[..i + 1][..i] == a.riskFactors[..i];
      score := score + points;
      reasons := reasons + [FactorReason(factor)];
    }
    assert a.riskFactors[..|a.riskFactors|] == a.riskFactors;
    assert reasons == FactorReasons(a.riskFactors);

    if a.country in HighRiskCountries {
      score := score + JurisdictionBonus;
      redFlags := redFlags + [JurisdictionFlag(a.country)];
    }

    var revenuePoints := BandPoints(a.revenueBand);
    score := score + revenuePoints;
    reasons := reasons + [BandReason(a.revenueBand)];
    assert reasons == Reasons(a);

    var severeFactors := Seqs.Filter(a.riskFactors, IsSevere);
    if |severeFactors| >= 2 {
      score := score + SevereBonus;
      redFlags := redFlags + [SevereFlag];
    }
    assert score == Unclamped(a);
    assert redFlags == RedFlags(a);

    score := if score < ScoreCap then score else ScoreCap;

    var riskTier :=
      if score >= 75 then Critical else if score >= 50 then High else if score >= 25 then Medium else Low;

    r := ScoringResult(score, riskTier, reasons, redFlags);
  }

  // ---------------------------------------------------------------------------
  // Properties of the score

  /** The score lies in [0, 100]; the cap is taken once, of the full total. */
  lemma ScoreInRange(a: Assessment)
    ensures 0 <= Score(a).riskScore <= 100
    ensures Score(a).riskScore <= Unclamped(a)
    ensures Unclamped(a) >= 100 ==> Score(a).riskScore == 100
    ensures Unclamped(a) < 100 ==> Score(a).riskScore == Unclamped(a)
  {
  }

  /** The tier is the threshold table applied to the capped score, with no overlaps. */
  lemma TierThresholds(score: int)
    ensures Tier(score) == Critical <==> score >= 75
    ensures Tier(score) == High <==> 50 <= score < 75
    ensures Tier(score) == Medium <==> 25 <= score < 50
    ensures Tier(score) == Low <==> score < 25
  {
  }

  lemma TierMonotone(s: int, t: int)
    requires s <= t
    ensures TierRank(Tier(s)) <= TierRank(Tier(t))
  {
  }

  lemma ScoreTierConsistent(a: Assessment)
    ensures Score(a).riskTier == Tier(Score(a).riskScore)
    ensures Score(a).riskScore == 75 ==> Score(a).riskTier == Critical
  {
  }

  /** One reason per factor occurrence, in input order, then the band's reason. */
  lemma ReasonsShape(a: Assessment)
    ensures |Score(a).reasons| == |a.riskFactors| + 1
    ensures forall i :: 0 <= i < |a.riskFactors| ==>
      Score(a).reasons[i] == a.riskFactors[i] + " (+" + NatToString(FactorPoints(a.riskFactors[i])) + " points)"
    ensures Score(a).reasons[|a.riskFactors|]
      == "Revenue band " + a.revenueBand + " (+" + NatToString(BandPoints(a.revenueBand)) + " points)"
  {
  }

  /** A factor or band outside the tables adds nothing and is still reported as +0. */
  lemma UnknownLabelsScoreZero(factor: string, band: string)
    ensures factor !in RiskFactorScores ==> FactorPoints(factor) == 0 && FactorReason(factor) == factor + " (+0 points)"
    ensures band !in RevenueBandScores ==> BandPoints(band) == 0 && BandReason(band) == "Revenue band " + band + " (+0 points)"
  {
  }

  lemma FlagsDiffer(country: string)
    ensures JurisdictionFlag(country) != SevereFlag
  {
    assert JurisdictionFlag(country)[0] == 'O';
  }

  /** The jurisdiction flag is raised, and 20 points added, exactly for the listed countries. */
  lemma JurisdictionFlagIff(a: Assessment)
    ensures JurisdictionFlag(a.country) in Score(a).redFlags <==> a.country in HighRiskCountries
    ensures Unclamped(a) == Unclamped(a.(country := "")) + (if a.country in HighRiskCountries then 20 else 0)
  {
    FlagsDiffer(a.country);
  }

  /** Two positions of `factors` hold severe factors (the same factor twice counts). */
  predicate TwoSevereEntries(factors: seq<string>)
  {
    exists i, j :: 0 <= i < j < |factors| && IsSevere(factors[i]) && IsSevere(factors[j])
  }

  lemma {:induction false} SomeSevereEntry(factors: seq<string>)
    ensures |SevereFactors(factors)| >= 1 <==> exists i :: 0 <= i < |factors| && IsSevere(factors[i])
  {
    if factors != [] {
      var tail := factors[1..];
      SomeSevereEntry(tail);
      if !IsSevere(factors[0]) {
        if exists i :: 0 <= i < |factors| && IsSevere(factors[i]) {
          var i :| 0 <= i < |factors| && IsSevere(factors[i]);
          assert IsSevere(tail[i - 1]);
        }
        if exists i :: 0 <= i < |tail| && IsSevere(tail[i]) {
          var i :| 0 <= i < |tail| && IsSevere(tail[i]);
          assert IsSevere(factors[i + 1]);
        }
      }
    }
  }

  lemma {:induction false} TwoSevereEntriesCount(factors: seq<string>)
    ensures HasSevereCombination(factors) <==> TwoSevereEntries(factors)
  {
    if factors != [] {
      var tail := factors[1..];
      TwoSevereEntriesCount(tail);
      SomeSevereEntry(tail);
      if TwoSevereEntries(factors) {
        var i, j :| 0 <= i < j < |factors| && IsSevere(factors[i]) && IsSevere(factors[j]);
        assert IsSevere(tail[j - 1]);
        if i > 0 {
          assert IsSevere(tail[i - 1]);
        }
      }
      if IsSevere(factors[0]) && |SevereFactors(tail)| >= 1 {
        var j :| 0 <= j < |tail| && IsSevere(tail[j]);
        assert IsSevere(factors[j + 1]);
      }
      if TwoSevereEntries(tail) {
        var i, j :| 0 <= i < j < |tail| && IsSevere(tail[i]) && IsSevere(tail[j]);
        assert IsSevere(factors[i + 1]) && IsSevere(factors[j + 1]);
      }
    }
  }

  /** The severe-combination flag is raised, and 10 points added, exactly when two entries are severe. */
  lemma SevereFlagIff(a: Assessment)
    ensures SevereFlag in Score(a).redFlags <==> TwoSevereEntries(a.riskFactors)
    ensures Unclamped(a) == FactorSum(a.riskFactors) + BandPoints(a.revenueBand)
      + (if a.country in HighRiskCountries then 20 else 0)
      + (if TwoSevereEntries(a.riskFactors) then 10 else 0)
  {
    TwoSevereEntriesCount(a.riskFactors);
    FlagsDiffer(a.country);
  }

  /** At most two red flags; when both are raised the jurisdiction flag comes first. */
  lemma RedFlagsOrder(a: Assessment)
    ensures |Score(a).redFlags| <= 2
    ensures |Score(a).redFlags| == 2 ==> Score(a).redFlags == [JurisdictionFlag(a.country), SevereFlag]
    ensures forall f :: f in Score(a).redFlags ==> f == JurisdictionFlag(a.country) || f == SevereFlag
  {
  }

  // ---------------------------------------------------------------------------
  // Adding a factor, reordering the factors

  lemma FactorSumAppend(factors: seq<string>, f: string)
    ensures FactorSum(factors + [f]) == FactorSum(factors) + FactorPoints(f)
  {
    Seqs.SumAppend(factors, f, FactorPoints);
  }

  /** Appending one factor never lowers the score or the tier and adds exactly one reason, before the band's. */
  lemma AppendFactorMonotone(a: Assessment, f: string)
    ensures Score(a.(riskFactors := a.riskFactors + [f])).riskScore >= Score(a).riskScore
    ensures TierRank(Score(a.(riskFactors := a.riskFactors + [f])).riskTier) >= TierRank(Score(a).riskTier)
    ensures Score(a.(riskFactors := a.riskFactors + [f])).reasons
      == Score(a).reasons[..|a.riskFactors|] + [FactorReason(f), BandReason(a.revenueBand)]
  {
    var b := a.(riskFactors := a.riskFactors + [f]);
    FactorSumAppend(a.riskFactors, f);
    Seqs.FilterAppend(a.riskFactors, [f], IsSevere);
    assert Unclamped(b) >= Unclamped(a);
    TierMonotone(Score(a).riskScore, Score(b).riskScore);
    assert FactorReasons(b.riskFactors) == FactorReasons(a.riskFactors) + [FactorReason(f)];
  }

  /** Reordering the factors changes only the order of the reasons: score, tier and red flags stay. */
  lemma OrderIndependent(a: Assessment, b: Assessment)
    requires multiset(a.riskFactors) == multiset(b.riskFactors)
    requires a.country == b.country && a.revenueBand == b.revenueBand
    ensures Score(a).riskScore == Score(b).riskScore
    ensures Score(a).riskTier == Score(b).riskTier
    ensures Score(a).redFlags == Score(b).redFlags
  {
    Seqs.SumPermutation(a.riskFactors, b.riskFactors, FactorPoints);
    Seqs.FilterLengthPermutation(a.riskFactors, b.riskFactors, IsSevere);
    assert Unclamped(a) == Unclamped(b);
    assert RedFlags(a) == RedFlags(b);
  }

  /** The result depends on the factors, country and band only, never on identity, status or time. */
  lemma ScoreReadsOnlyInputs(a: Assessment, b: Assessment)
    requires SameScoringInputs(a, b)
    ensures Score(a) == Score(b)
  {
  }

  // ---------------------------------------------------------------------------
  // Worked cases

  /** The factor table, entry by entry. */
  lemma FactorTable()
    ensures FactorPoints("Complex Ownership") == 15
    ensures FactorPoints("High Cash Transactions") == 20
    ensures FactorPoints("Offshore Entities") == 25
    ensures FactorPoints("Rapid Growth") == 10
    ensures FactorPoints("Regulatory Issues") == 30
    ensures FactorPoints("Related Party Transactions") == 15
    ensures FactorPoints("Unusual Revenue Patterns") == 20
  {
  }

  /** The revenue-band table, entry by entry; it peaks at mid-size revenue. */
  lemma BandTable()
    ensures BandPoints("< $1M") == 5
    ensures BandPoints("$1M - $10M") == 10
    ensures BandPoints("$10M - $100M") == 15
    ensures BandPoints("$100M - $1B") == 10
    ensures BandPoints("> $1B") == 5
  {
  }

  lemma FactorSumPair(x: string, y: string)
    ensures FactorSum([x, y]) == FactorPoints(x) + FactorPoints(y)
  {
    FactorSumAppend([x], y);
    FactorSumAppend([], x);
    assert [x] + [y] == [x, y];
  }

  /** The reason and flag templates, spelled out for the worked cases. */
  lemma RapidGrowthReasonText()
    ensures FactorReason("Rapid Growth") == "Rapid Growth (+10 points)"
  {
    FactorTable();
    assert NatToString(10) == "10";
  }

  lemma MidBandReasonText()
    ensures BandReason("$1M - $10M") == "Revenue band $1M - $10M (+10 points)"
  {
    BandTable();
    assert NatToString(10) == "10";
  }

  lemma CaymanFlagText()
    ensures JurisdictionFlag("Cayman Islands") == "Operations in high-risk jurisdiction: Cayman Islands"
  {
  }

  /** One mild factor in an unlisted country: 10 + 10 = 20, tier Low, no red flag. */
  lemma MinimalFactorsScoreLow(a: Assessment)
    requires a.riskFactors == ["Rapid Growth"] && a.country == "United States" && a.revenueBand == "$1M - $10M"
    ensures Score(a).riskScore == 20 && Score(a).riskTier == Low
    ensures Score(a).reasons == ["Rapid Growth (+10 points)", "Revenue band $1M - $10M (+10 points)"]
    ensures Score(a).redFlags == []
  {
    RapidGrowthReasonText();
    MidBandReasonText();
    assert Unclamped(a) == 20 by {
      FactorTable();
      BandTable();
      FactorSumAppend([], "Rapid Growth");
      assert !IsHighRiskCountry(a.country);
      assert !IsSevere("Rapid Growth");
      assert SevereFactors(a.riskFactors) == [];
    }
    assert FactorReasons(a.riskFactors) == [FactorReason("Rapid Growth")];
  }

  /** Three severe factors in a listed country: 115 before the cap, 100 after, tier Critical, both flags. */
  lemma SevereFactorsCapped(a: Assessment)
    requires a.riskFactors == ["Regulatory Issues", "Offshore Entities", "High Cash Transactions"]
    requires a.country == "Cayman Islands" && a.revenueBand == "$100M - $1B"
    ensures Unclamped(a) == 115
    ensures Score(a).riskScore == 100 && Score(a).riskTier == Critical
    ensures Score(a).redFlags
      == ["Operations in high-risk jurisdiction: Cayman Islands", "Multiple severe risk factors identified"]
  {
    CaymanFlagText();
    SevereTriple(a.riskFactors);
    assert IsHighRiskCountry(a.country);
    assert BandPoints(a.revenueBand) == 10 by {
      BandTable();
    }
    assert Unclamped(a) == 115;
  }

  lemma SevereTriple(factors: seq<string>)
    requires factors == ["Regulatory Issues", "Offshore Entities", "High Cash Transactions"]
    ensures FactorSum(factors) == 75 && HasSevereCombination(factors)
  {
    assert IsSevere(factors[0]) && IsSevere(factors[1]);
    TwoSevereEntriesCount(factors);
    FactorTable();
    FactorSumPair("Regulatory Issues", "Offshore Entities");
    FactorSumAppend(["Regulatory Issues", "Offshore Entities"], "High Cash Transactions");
    assert factors == ["Regulatory Issues", "Offshore Entities"] + ["High Cash Transactions"];
  }

  /**
   * A duplicated factor is scored twice and counts twice toward the severe
   * combination: 25 + 25 + 20 + 5 + 10 = 85, tier Critical.
   */
  lemma DuplicateFactorCountsTwice(a: Assessment)
    requires a.riskFactors == ["Offshore Entities", "Offshore Entities"]
    requires a.country == "Panama" && a.revenueBand == "> $1B"
    ensures Score(a).riskScore == 85 && Score(a).riskTier == Critical
    ensures |Score(a).reasons| == 3 && Score(a).reasons[0] == Score(a).reasons[1]
    ensures Score(a).redFlags == [JurisdictionFlag("Panama"), SevereFlag]
  {
    assert HasSevereCombination(a.riskFactors) by {
      var fs := a.riskFactors;
      assert IsSevere(fs[0]) && IsSevere(fs[1]);
      TwoSevereEntriesCount(fs);
    }
    assert IsHighRiskCountry(a.country);
    assert Unclamped(a) == 85 by {
      FactorTable();
      BandTable();
      FactorSumPair("Offshore Entities", "Offshore Entities");
    }
  }
}
