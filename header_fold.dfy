/** The header synthesis of `IXBRLManager.__set_ix_header`
    (app/ix_manager/ixbrl_manager.py): a left fold over the document's
    non-numeric facts through an ordered table of name patterns. */
module HeaderFold {
  import opened Common
  import opened IxTag

  const TokyoStockExchangeName := "東京証券取引所"

  // The name patterns, in the order of the `elif` chain. `$` is taken as the
  // end of the name.

  /** `CompanyName|AssetManagerREIT` */
  predicate IsCompanyName(n: string) { Contains(n, "CompanyName") || Contains(n, "AssetManagerREIT") }
  /** `Securit.*Code$` */
  predicate IsSecuritiesCode(n: string) { ContainsBeforeSuffix(n, "Securit", "Code") }
  /** `DocumentName` */
  predicate IsDocumentName(n: string) { Contains(n, "DocumentName") }
  /** `_FilingDate$|_ReportingDateOf.*Correction.*` */
  predicate IsReportingDate(n: string) { EndsWith(n, "_FilingDate") || ContainsThen(n, "_ReportingDateOf", "Correction") }
  /** `TypeOfCurrentPeriod` */
  predicate IsCurrentPeriod(n: string) { Contains(n, "TypeOfCurrentPeriod") }
  /** `.*URL.*` */
  predicate IsUrl(n: string) { Contains(n, "URL") }
  /** `(?=.*\_FiscalYearEnd.*)` */
  predicate IsFiscalYearEnd(n: string) { Contains(n, "_FiscalYearEnd") }
  /** `.*Tel$` */
  predicate IsTel(n: string) { EndsWith(n, "Tel") }
  /** `SpecificBusiness` */
  predicate IsSpecificBusiness(n: string) { Contains(n, "SpecificBusiness") }
  /** `TokyoStockExchange$` */
  predicate IsListedMarket(n: string) { EndsWith(n, "TokyoStockExchange") }
  /** `TokyoStockExchange(?!$)` */
  predicate IsMarketSection(n: string) { ContainsNotAtEnd(n, "TokyoStockExchange") }
  /** `.*BalanceSheet.*TextBlock$` */
  predicate IsBs(n: string) { ContainsBeforeSuffix(n, "BalanceSheet", "TextBlock") }
  /** `(.*StatementOfIncome|.*StatementOfProfitOrLoss).*TextBlock$` */
  predicate IsPl(n: string)
  {
    ContainsBeforeSuffix(n, "StatementOfIncome", "TextBlock") ||
    ContainsBeforeSuffix(n, "StatementOfProfitOrLoss", "TextBlock")
  }
  /** `.*StatementOfCashFlows.*TextBlock$` */
  predicate IsCf(n: string) { ContainsBeforeSuffix(n, "StatementOfCashFlows", "TextBlock") }
  /** `.*StatementOfComprehensiveIncome.*TextBlock$` */
  predicate IsCi(n: string) { ContainsBeforeSuffix(n, "StatementOfComprehensiveIncome", "TextBlock") }
  /** `.*StatementOfChangesInEquity.*TextBlock$` */
  predicate IsSce(n: string) { ContainsBeforeSuffix(n, "StatementOfChangesInEquity", "TextBlock") }
  /** `.*StatementOfFinancialPositionI.*TextBlock$` */
  predicate IsSfp(n: string) { ContainsBeforeSuffix(n, "StatementOfFinancialPositionI", "TextBlock") }

  /** The branch of the `elif` chain a fact name takes. */
  datatype Rule =
    | CompanyNameRule | SecuritiesCodeRule | DocumentNameRule | ReportingDateRule
    | CurrentPeriodRule | UrlRule | FiscalYearEndRule | TelRule | SpecificBusinessRule
    | ListedMarketRule | MarketSectionRule
    | BsRule | PlRule | CfRule | CiRule | SceRule | SfpRule
    | NoRule

  /** Position of a rule in the chain; `NoRule` comes after all of them. */
  function Rank(r: Rule): nat
  {
    match r
    case CompanyNameRule => 0
    case SecuritiesCodeRule => 1
    case DocumentNameRule => 2
    case ReportingDateRule => 3
    case CurrentPeriodRule => 4
    case UrlRule => 5
    case FiscalYearEndRule => 6
    case TelRule => 7
    case SpecificBusinessRule => 8
    case ListedMarketRule => 9
    case MarketSectionRule => 10
    case BsRule => 11
    case PlRule => 12
    case CfRule => 13
    case CiRule => 14
    case SceRule => 15
    case SfpRule => 16
    case NoRule => 17
  }

  /** The pattern of each rule, on its own. */
  predicate Matches(r: Rule, n: string)
  {
    match r
    case CompanyNameRule => IsCompanyName(n)
    case SecuritiesCodeRule => IsSecuritiesCode(n)
    case DocumentNameRule => IsDocumentName(n)
    case ReportingDateRule => IsReportingDate(n)
    case CurrentPeriodRule => IsCurrentPeriod(n)
    case UrlRule => IsUrl(n)
    case FiscalYearEndRule => IsFiscalYearEnd(n)
    case TelRule => IsTel(n)
    case SpecificBusinessRule => IsSpecificBusiness(n)
    case ListedMarketRule => IsListedMarket(n)
    case MarketSectionRule => IsMarketSection(n)
    case BsRule => IsBs(n)
    case PlRule => IsPl(n)
    case CfRule => IsCf(n)
    case CiRule => IsCi(n)
    case SceRule => IsSce(n)
    case SfpRule => IsSfp(n)
    case NoRule => false
  }

  /** The rule at each position of the chain. */
  function RuleAt(k: nat): (r: Rule)
    ensures k < 17 ==> Rank(r) == k
    ensures k >= 17 ==> r == NoRule
  {
    if k == 0 then CompanyNameRule
    else if k == 1 then SecuritiesCodeRule
    else if k == 2 then DocumentNameRule
    else if k == 3 then ReportingDateRule
    else if k == 4 then CurrentPeriodRule
    else if k == 5 then UrlRule
    else if k == 6 then FiscalYearEndRule
    else if k == 7 then TelRule
    else if k == 8 then SpecificBusinessRule
    else if k == 9 then ListedMarketRule
    else if k == 10 then MarketSectionRule
    else if k == 11 then BsRule
    else if k == 12 then PlRule
    else if k == 13 then CfRule
    else if k == 14 then CiRule
    else if k == 15 then SceRule
    else if k == 16 then SfpRule
    else NoRule
  }

  lemma RuleAtRank(r: Rule)
    ensures RuleAt(Rank(r)) == r
  {
  }

  /** The `elif` chain from position `k` on: the first rule there whose
      pattern matches `n`. */
  function FirstRuleFrom(n: string, k: nat): Rule
    decreases 17 - k
  {
    if k >= 17 then NoRule
    else if Matches(RuleAt(k), n) then RuleAt(k)
    else FirstRuleFrom(n, k + 1)
  }

  /** The branch the whole chain takes for fact name `n`. */
  function Classify(n: string): Rule
  {
    FirstRuleFrom(n, 0)
  }

  lemma {:induction false} FirstRuleFromSpec(n: string, k: nat)
    requires k <= 17
    ensures FirstRuleFrom(n, k) != NoRule ==> Matches(FirstRuleFrom(n, k), n) && k <= Rank(FirstRuleFrom(n, k))
    ensures forall r :: k <= Rank(r) < Rank(FirstRuleFrom(n, k)) ==> !Matches(r, n)
    decreases 17 - k
  {
    if k < 17 {
      FirstRuleFromSpec(n, k + 1);
      forall r | k <= Rank(r) < Rank(FirstRuleFrom(n, k))
        ensures !Matches(r, n)
      {
        if Rank(r) == k {
          RuleAtRank(r);
        }
      }
    }
  }

  /** Within one fact the first matching pattern wins: the chosen rule
      matches, and no rule earlier in the chain does. No rule is chosen
      exactly when no pattern matches. */
  lemma ClassifyIsFirstMatch(n: string)
    ensures Classify(n) != NoRule ==> Matches(Classify(n), n)
    ensures forall r :: Rank(r) < Rank(Classify(n)) ==> !Matches(r, n)
    ensures Classify(n) == NoRule <==> forall r :: !Matches(r, n)
  {
    FirstRuleFromSpec(n, 0);
  }

  /** The eighteen local variables of the fold. */
  datatype HeaderState = HeaderState(
    companyName: Option<string>,
    securitiesCode: Option<string>,
    documentName: Option<string>,
    reportingDate: Option<string>,
    currentPeriod: Option<string>,
    listedMarket: Option<string>,
    marketSection: Option<string>,
    url: Option<string>,
    isBs: bool,
    isPl: bool,
    isCf: bool,
    isCi: bool,
    isSce: bool,
    isSfp: bool,
    fiscalYearEnd: Option<string>,
    tel: Option<string>,
    reportType: Option<string>,
    specificBusiness: Option<bool>)

  /** Strings start unset and the six statement flags start false. */
  const Initial := HeaderState(None, None, None, None, None, None, None, None,
                               false, false, false, false, false, false, None, None, None, None)

  /** The condition the two exchange rules apply. */
  predicate Affirmed(f: IxNonNumeric)
  {
    f.format == Some("booleantrue") || f.value == Some("true")
  }

  /** Every fact has a name: `re.search` raises on a missing one. */
  predicate AllNamed(facts: seq<IxNonNumeric>)
  {
    forall i :: 0 <= i < |facts| ==> facts[i].name.Some?
  }

  /** What rule `r` does to the state for fact `f`. */
  function Apply(t: HeaderState, r: Rule, f: IxNonNumeric): HeaderState
  {
    match r
    case CompanyNameRule => t.(companyName := f.value)
    case SecuritiesCodeRule => t.(securitiesCode := f.value)
    case DocumentNameRule => t.(documentName := f.value)
    case ReportingDateRule => t.(reportingDate := f.value)
    case CurrentPeriodRule => t.(currentPeriod := f.value)
    case UrlRule => t.(url := f.value)
    case FiscalYearEndRule => t.(fiscalYearEnd := f.value)
    case TelRule => t.(tel := f.value)
    case SpecificBusinessRule => t.(specificBusiness := Some(f.value == Some("true")))
    case ListedMarketRule => if Affirmed(f) then t.(listedMarket := Some(TokyoStockExchangeName)) else t
    case MarketSectionRule => if Affirmed(f) then t.(marketSection := f.name) else t
    case BsRule => t.(isBs := true)
    case PlRule => t.(isPl := true)
    case CfRule => t.(isCf := true)
    case CiRule => t.(isCi := true)
    case SceRule => t.(isSce := true)
    case SfpRule => t.(isSfp := true)
    case NoRule => t
  }

  /** One iteration of the loop: `report_type` always follows the fact, then
      the first matching rule updates its variable. */
  function Step(s: HeaderState, f: IxNonNumeric): HeaderState
    requires f.name.Some?
  {
    Apply(s.(reportType := f.reportType), Classify(f.name.value), f)
  }

  /** The loop over the flattened fact list, from the initial state. */
  function Fold(facts: seq<IxNonNumeric>): HeaderState
    requires AllNamed(facts)
  {
    if |facts| == 0 then Initial
    else Step(Fold(facts[..|facts| - 1]), facts[|facts| - 1])
  }

  /** The header built from the final state. */
  function HeaderOf(headItemKey: Option<string>, s: HeaderState): (h: IxHeader)
    ensures h.itemKey == headItemKey
  {
    IxHeader(headItemKey, s.companyName, s.securitiesCode, s.documentName, s.reportingDate,
             s.currentPeriod, s.reportType, s.listedMarket, s.marketSection, s.url,
             Some(s.isBs), Some(s.isPl), Some(s.isCf), Some(s.isCi), Some(s.isSce), Some(s.isSfp),
             s.fiscalYearEnd, s.tel, s.specificBusiness)
  }

  /** The rules that copy the fact's value into one string variable. */
  predicate CopiesValue(r: Rule)
  {
    r in {CompanyNameRule, SecuritiesCodeRule, DocumentNameRule, ReportingDateRule,
          CurrentPeriodRule, UrlRule, FiscalYearEndRule, TelRule}
  }

  /** The variable a value-copying rule writes. */
  function Target(s: HeaderState, r: Rule): Option<string>
    requires CopiesValue(r)
  {
    match r
    case CompanyNameRule => s.companyName
    case SecuritiesCodeRule => s.securitiesCode
    case DocumentNameRule => s.documentName
    case ReportingDateRule => s.reportingDate
    case CurrentPeriodRule => s.currentPeriod
    case UrlRule => s.url
    case FiscalYearEndRule => s.fiscalYearEnd
    case TelRule => s.tel
  }

  /** What each rule does to the flag of rule `r`: only `r` itself raises
      it, and nothing lowers it. */
  lemma ApplyFlag(t: HeaderState, rule: Rule, f: IxNonNumeric, r: Rule)
    requires RaisesFlag(r)
    ensures Flag(Apply(t, rule, f), r) == (Flag(t, r) || rule == r)
  {
    match rule
    case BsRule =>
    case PlRule =>
    case CfRule =>
    case CiRule =>
    case SceRule =>
    case SfpRule =>
    case _ =>
  }

  /** What each rule does to the variable of value rule `r`: only `r` itself
      overwrites it, with the fact's value. */
  lemma ApplyTarget(t: HeaderState, rule: Rule, f: IxNonNumeric, r: Rule)
    requires CopiesValue(r)
    ensures Target(Apply(t, rule, f), r) == (if rule == r then f.value else Target(t, r))
  {
    match rule
    case CompanyNameRule =>
    case SecuritiesCodeRule =>
    case DocumentNameRule =>
    case ReportingDateRule =>
    case CurrentPeriodRule =>
    case UrlRule =>
    case FiscalYearEndRule =>
    case TelRule =>
    case _ =>
  }

  /** Only an affirmed listed-market fact sets `listed_market`, only an
      affirmed market-section fact sets `market_section`, only a
      specific-business fact sets `specific_business`; no rule touches
      `report_type`. */
  lemma ApplyOther(t: HeaderState, rule: Rule, f: IxNonNumeric)
    ensures Apply(t, rule, f).reportType == t.reportType
    ensures Apply(t, rule, f).listedMarket ==
              (if rule == ListedMarketRule && Affirmed(f) then Some(TokyoStockExchangeName) else t.listedMarket)
    ensures Apply(t, rule, f).marketSection ==
              (if rule == MarketSectionRule && Affirmed(f) then f.name else t.marketSection)
    ensures Apply(t, rule, f).specificBusiness ==
              (if rule == SpecificBusinessRule then Some(f.value == Some("true")) else t.specificBusiness)
  {
    match rule
    case ListedMarketRule =>
    case MarketSectionRule =>
    case SpecificBusinessRule =>
    case _ =>
  }

  /** The exchange rules change nothing unless the fact affirms them. */
  lemma ApplyUnaffirmed(t: HeaderState, rule: Rule, f: IxNonNumeric)
    requires rule == ListedMarketRule || rule == MarketSectionRule
    requires !Affirmed(f)
    ensures Apply(t, rule, f) == t
  {
  }

  /** The value of the last fact that takes rule `r`, or `None`. */
  function LastValue(facts: seq<IxNonNumeric>, r: Rule): Option<string>
    requires AllNamed(facts)
  {
    if |facts| == 0 then None
    else if Classify(facts[|facts| - 1].name.value) == r then facts[|facts| - 1].value
    else LastValue(facts[..|facts| - 1], r)
  }

  lemma AllNamedPrefix(facts: seq<IxNonNumeric>, k: nat)
    requires AllNamed(facts) && k <= |facts|
    ensures AllNamed(facts[..k])
  {
  }

  /** Across facts the last match wins: each value-copying variable ends as
      the value of the last fact that takes its rule, or unset. */
  lemma {:induction false} LastMatchWins(facts: seq<IxNonNumeric>, r: Rule)
    requires AllNamed(facts) && CopiesValue(r)
    ensures Target(Fold(facts), r) == LastValue(facts, r)
    decreases |facts|
  {
    if |facts| > 0 {
      var last := facts[|facts| - 1];
      AllNamedPrefix(facts, |facts| - 1);
      LastMatchWins(facts[..|facts| - 1], r);
      ApplyTarget(Fold(facts[..|facts| - 1]).(reportType := last.reportType), Classify(last.name.value), last, r);
    }
  }

  /** `report_type` ends as the last fact's, or unset when there are none. */
  lemma ReportTypeIsLast(facts: seq<IxNonNumeric>)
    requires AllNamed(facts)
    ensures Fold(facts).reportType == (if |facts| == 0 then None else facts[|facts| - 1].reportType)
  {
    if |facts| > 0 {
      var last := facts[|facts| - 1];
      AllNamedPrefix(facts, |facts| - 1);
      ApplyOther(Fold(facts[..|facts| - 1]).(reportType := last.reportType), Classify(last.name.value), last);
    }
  }

  /** The rules that raise a statement flag. */
  predicate RaisesFlag(r: Rule)
  {
    r in {BsRule, PlRule, CfRule, CiRule, SceRule, SfpRule}
  }

  function Flag(s: HeaderState, r: Rule): bool
    requires RaisesFlag(r)
  {
    match r
    case BsRule => s.isBs
    case PlRule => s.isPl
    case CfRule => s.isCf
    case CiRule => s.isCi
    case SceRule => s.isSce
    case SfpRule => s.isSfp
  }

  /** The rule a named fact takes. */
  function RuleOf(f: IxNonNumeric): Rule
  {
    if f.name.Some? then Classify(f.name.value) else NoRule
  }

  /** Whether some fact takes rule `r`, with the rule each fact takes given
      by `select`. */
  predicate SomeFactTakes(facts: seq<IxNonNumeric>, select: IxNonNumeric -> Rule, r: Rule)
  {
    |facts| > 0 && (select(facts[|facts| - 1]) == r || SomeFactTakes(facts[..|facts| - 1], select, r))
  }

  lemma {:induction false} SomeFactTakesSpec(facts: seq<IxNonNumeric>, select: IxNonNumeric -> Rule, r: Rule)
    ensures SomeFactTakes(facts, select, r) <==> exists i :: 0 <= i < |facts| && select(facts[i]) == r
    decreases |facts|
  {
    if |facts| > 0 {
      var init := facts[..|facts| - 1];
      SomeFactTakesSpec(init, select, r);
      if exists i :: 0 <= i < |init| && select(init[i]) == r {
        var i :| 0 <= i < |init| && select(init[i]) == r;
        assert facts[i] == init[i];
      }
      if exists i :: 0 <= i < |facts| && select(facts[i]) == r {
        var i :| 0 <= i < |facts| && select(facts[i]) == r;
        if i < |init| {
          assert init[i] == facts[i];
        }
      }
    }
  }

  lemma {:induction false} FlagIsSomeFactTakes(facts: seq<IxNonNumeric>, r: Rule)
    requires AllNamed(facts) && RaisesFlag(r)
    ensures Flag(Fold(facts), r) == SomeFactTakes(facts, RuleOf, r)
    decreases |facts|
  {
    if |facts| > 0 {
      var init := facts[..|facts| - 1];
      AllNamedPrefix(facts, |facts| - 1);
      var last := facts[|facts| - 1];
      FlagIsSomeFactTakes(init, r);
      ApplyFlag(Fold(init).(reportType := last.reportType), Classify(last.name.value), last, r);
    }
  }

  /** The flags are sticky: a flag ends true exactly when some fact took its
      rule, wherever that fact is in the list. */
  lemma FlagIffSomeFact(facts: seq<IxNonNumeric>, r: Rule)
    requires AllNamed(facts) && RaisesFlag(r)
    ensures Flag(Fold(facts), r) <==> exists i :: 0 <= i < |facts| && Classify(facts[i].name.value) == r
  {
    FlagIsSomeFactTakes(facts, r);
    SomeFactTakesSpec(facts, RuleOf, r);
    assert forall i :: 0 <= i < |facts| ==> RuleOf(facts[i]) == Classify(facts[i].name.value);
  }

  /** Once a flag is true, no later fact resets it. */
  lemma FlagNeverResets(s: HeaderState, f: IxNonNumeric, r: Rule)
    requires f.name.Some? && RaisesFlag(r) && Flag(s, r)
    ensures Flag(Step(s, f), r)
  {
    ApplyFlag(s.(reportType := f.reportType), Classify(f.name.value), f, r);
  }

  /** An exchange fact without `booleantrue` format or `"true"` value changes
      nothing but `report_type`, and no later pattern is tried for it. */
  lemma UnaffirmedExchangeIsNoOp(s: HeaderState, f: IxNonNumeric)
    requires f.name.Some? && !Affirmed(f)
    requires Classify(f.name.value) in {ListedMarketRule, MarketSectionRule}
    ensures Step(s, f) == s.(reportType := f.reportType)
  {
    ApplyUnaffirmed(s.(reportType := f.reportType), Classify(f.name.value), f);
  }

  /** A name matching both `CompanyName` and `URL` sets the company name and
      leaves the URL as it was. */
  lemma CompanyNameShadowsUrl(s: HeaderState, f: IxNonNumeric)
    requires f.name.Some? && Contains(f.name.value, "CompanyName") && IsUrl(f.name.value)
    ensures Step(s, f).companyName == f.value && Step(s, f).url == s.url
  {
    ClassifyIsFirstMatch(f.name.value);
    assert Matches(CompanyNameRule, f.name.value);
    assert Classify(f.name.value) == CompanyNameRule;
    ApplyTarget(s.(reportType := f.reportType), CompanyNameRule, f, CompanyNameRule);
    ApplyTarget(s.(reportType := f.reportType), CompanyNameRule, f, UrlRule);
  }

  /** The rule a fact takes when it is affirmed, and no rule otherwise. */
  function AffirmedRuleOf(f: IxNonNumeric): Rule
  {
    if Affirmed(f) then RuleOf(f) else NoRule
  }

  lemma {:induction false} ListedIsSomeFactTakes(facts: seq<IxNonNumeric>)
    requires AllNamed(facts)
    ensures Fold(facts).listedMarket ==
              if SomeFactTakes(facts, AffirmedRuleOf, ListedMarketRule) then Some(TokyoStockExchangeName) else None
    decreases |facts|
  {
    if |facts| > 0 {
      var init := facts[..|facts| - 1];
      AllNamedPrefix(facts, |facts| - 1);
      var last := facts[|facts| - 1];
      ListedIsSomeFactTakes(init);
      ApplyOther(Fold(init).(reportType := last.reportType), Classify(last.name.value), last);
    }
  }

  /** The listed market ends as the exchange's name exactly when some fact
      takes the `TokyoStockExchange$` rule affirmatively; it is unset
      otherwise. */
  lemma ListedMarketIffAffirmed(facts: seq<IxNonNumeric>)
    requires AllNamed(facts)
    ensures Fold(facts).listedMarket == Some(TokyoStockExchangeName) <==>
              exists i :: 0 <= i < |facts| && Classify(facts[i].name.value) == ListedMarketRule && Affirmed(facts[i])
    ensures Fold(facts).listedMarket == None || Fold(facts).listedMarket == Some(TokyoStockExchangeName)
  {
    ListedIsSomeFactTakes(facts);
    SomeFactTakesSpec(facts, AffirmedRuleOf, ListedMarketRule);
    assert forall i :: 0 <= i < |facts| ==>
      (AffirmedRuleOf(facts[i]) == ListedMarketRule <==> Classify(facts[i].name.value) == ListedMarketRule && Affirmed(facts[i]));
  }

  /** The name of the last fact that takes the market-section rule
      affirmatively, or `None`. */
  function LastMarketSection(facts: seq<IxNonNumeric>): Option<string>
    requires AllNamed(facts)
  {
    if |facts| == 0 then None
    else
      var last := facts[|facts| - 1];
      if Classify(last.name.value) == MarketSectionRule && Affirmed(last) then last.name
      else LastMarketSection(facts[..|facts| - 1])
  }

  /** `market_section` ends as the name of the last affirmed
      `TokyoStockExchange(?!$)` fact; unaffirmed ones leave it alone, and it
      is unset when there is none. */
  lemma {:induction false} MarketSectionIsLast(facts: seq<IxNonNumeric>)
    requires AllNamed(facts)
    ensures Fold(facts).marketSection == LastMarketSection(facts)
    decreases |facts|
  {
    if |facts| > 0 {
      var last := facts[|facts| - 1];
      AllNamedPrefix(facts, |facts| - 1);
      MarketSectionIsLast(facts[..|facts| - 1]);
      ApplyOther(Fold(facts[..|facts| - 1]).(reportType := last.reportType), Classify(last.name.value), last);
    }
  }

  /** Whether the last fact that takes the specific-business rule has value
      `"true"`, or `None` when no fact takes it. */
  function LastSpecificBusiness(facts: seq<IxNonNumeric>): Option<bool>
    requires AllNamed(facts)
  {
    if |facts| == 0 then None
    else
      var last := facts[|facts| - 1];
      if Classify(last.name.value) == SpecificBusinessRule then Some(last.value == Some("true"))
      else LastSpecificBusiness(facts[..|facts| - 1])
  }

  /** `specific_business` ends as `value == "true"` of the last
      `SpecificBusiness` fact, or unset when there is none. */
  lemma {:induction false} SpecificBusinessIsLast(facts: seq<IxNonNumeric>)
    requires AllNamed(facts)
    ensures Fold(facts).specificBusiness == LastSpecificBusiness(facts)
    decreases |facts|
  {
    if |facts| > 0 {
      var last := facts[|facts| - 1];
      AllNamedPrefix(facts, |facts| - 1);
      SpecificBusinessIsLast(facts[..|facts| - 1]);
      ApplyOther(Fold(facts[..|facts| - 1]).(reportType := last.reportType), Classify(last.name.value), last);
    }
  }
}
