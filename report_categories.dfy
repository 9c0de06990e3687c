/** app/constants/report_categories.py: the report-detail codes that appear
    in the file names of an earnings-release archive. */
module ReportCategories {
  import opened Common

  const Edjp := "edjp"  // Japanese GAAP
  const Edus := "edus"  // US GAAP
  const Edif := "edif"  // IFRS
  const Edit := "edit"  // IFRS
  const Rvdf := "rvdf"  // dividend forecast revision
  const Rvfc := "rvfc"  // earnings forecast revision
  const Rejp := "rejp"  // REIT earnings release
  const Rrdf := "rrdf"  // REIT distribution forecast revision
  const Rrfc := "rrfc"  // REIT operating forecast revision
  const Efjp := "efjp"  // ETF earnings release

  /** `field_values`: every code, in declared order. */
  function FieldValues(): seq<string>
  {
    [Edjp, Edus, Edif, Edit, Rvdf, Rvfc, Rejp, Rrdf, Rrfc, Efjp]
  }

  /** `financial_reports`: the codes of an earnings release with statements. */
  function FinancialReports(): seq<string>
  {
    [Edjp, Edus, Edif, Edit, Rejp, Efjp]
  }

  /** `revision_reports`: the codes of a forecast revision notice. */
  function RevisionReports(): seq<string>
  {
    [Rvdf, Rvfc, Rrdf, Rrfc]
  }

  /** The two groups split the full list: each is contained in it, they share
      no code, and together they cover it. */
  lemma ReportListsPartition()
    ensures |FieldValues()| == 10 && |FinancialReports()| == 6 && |RevisionReports()| == 4
    ensures forall c :: c in FinancialReports() ==> c in FieldValues()
    ensures forall c :: c in RevisionReports() ==> c in FieldValues()
    ensures forall c :: !(c in FinancialReports() && c in RevisionReports())
    ensures forall c :: c in FieldValues() <==> c in FinancialReports() || c in RevisionReports()
  {
  }

  /** Every code is four letters long and the codes are pairwise distinct. */
  lemma CodesDistinct()
    ensures forall c :: c in FieldValues() ==> |c| == 4
    ensures forall i, j :: 0 <= i < j < |FieldValues()| ==> FieldValues()[i] != FieldValues()[j]
  {
  }

  /** No code occurs inside another, so a path containing one code never
      contains another by accident of spelling. */
  lemma CodesNotSubstrings()
    ensures forall a, b :: a in FieldValues() && b in FieldValues() && a != b ==> !Contains(a, b)
  {
    CodesDistinct();
    forall a, b | a in FieldValues() && b in FieldValues() && a != b
      ensures !Contains(a, b)
    {
      ContainsSameLength(a, b);
    }
  }
}
