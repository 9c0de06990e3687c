/** app/ix_manager/ixbrl_manager.py: the manager of the inline XBRL files of
    one archive. It keeps one parser per file, collects each parser's facts
    into items, synthesises the header from the non-numeric facts, and sorts
    the items by position. */
module IxManager {
  import opened Common
  import opened TagBase
  import opened IxTag
  import opened Items
  import opened HeaderFold
  import opened ItemSort

  const XbrlListEmptyMessage := "ixbrlファイルが見つかりません。"

  /** `XbrlListEmptyError`, raised when the archive lists no ixbrl file. */
  datatype ManagerError = XbrlListEmpty(message: string)

  /** What a parser extracted from one file. */
  datatype ParsedFile = ParsedFile(
    sourceFileId: Option<string>,
    nonFractions: seq<IxNonFraction>,
    nonNumerics: seq<IxNonNumeric>,
    contexts: seq<IxContext>)

  /** Building a parser either succeeds or raises
      `DocumentNameTagNotFoundError`. */
  datatype ParseOutcome = Parsed(file: ParsedFile) | DocumentNameTagNotFound

  /** The parsers `__init_parser` keeps: the successful ones, in file order. */
  function KeptParsers(outcomes: seq<ParseOutcome>): (r: seq<ParsedFile>)
    ensures |r| <= |outcomes|
  {
    if |outcomes| == 0 then []
    else
      var last := outcomes[|outcomes| - 1];
      KeptParsers(outcomes[..|outcomes| - 1]) + (if last.Parsed? then [last.file] else [])
  }

  /** Dropping failed files keeps the order: the kept parsers of two runs
      of files are those of the first run followed by those of the second. */
  lemma {:induction false} KeptParsersAppend(a: seq<ParseOutcome>, b: seq<ParseOutcome>)
    ensures KeptParsers(a + b) == KeptParsers(a) + KeptParsers(b)
    decreases |b|
  {
    if |b| == 0 {
      assert a + b == a;
    } else {
      assert (a + b)[..|a + b| - 1] == a + b[..|b| - 1];
      KeptParsersAppend(a, b[..|b| - 1]);
    }
  }

  /** A file is kept exactly when its parser was built. */
  lemma {:induction false} KeptParsersMembers(outcomes: seq<ParseOutcome>)
    ensures forall p :: p in KeptParsers(outcomes) <==> Parsed(p) in outcomes
    decreases |outcomes|
  {
    if |outcomes| > 0 {
      var init := outcomes[..|outcomes| - 1];
      KeptParsersMembers(init);
      assert outcomes == init + [outcomes[|outcomes| - 1]];
    }
  }

  function NonFractionRows(ps: seq<ParsedFile>): seq<seq<IxNonFraction>>
  {
    seq(|ps|, i requires 0 <= i < |ps| => ps[i].nonFractions)
  }

  function NonNumericRows(ps: seq<ParsedFile>): seq<seq<IxNonNumeric>>
  {
    seq(|ps|, i requires 0 <= i < |ps| => ps[i].nonNumerics)
  }

  function ContextRows(ps: seq<ParsedFile>): seq<seq<IxContext>>
  {
    seq(|ps|, i requires 0 <= i < |ps| => ps[i].contexts)
  }

  /** One `_set_items` item per parser, under the parser's source file id. */
  function NonFractionItems(ps: seq<ParsedFile>): seq<Item>
  {
    seq(|ps|, i requires 0 <= i < |ps| => Item("ix_non_fraction", ps[i].sourceFileId, NonFractions(ps[i].nonFractions), None))
  }

  function NonNumericItems(ps: seq<ParsedFile>): seq<Item>
  {
    seq(|ps|, i requires 0 <= i < |ps| => Item("ix_non_numeric", ps[i].sourceFileId, NonNumerics(ps[i].nonNumerics), None))
  }

  function ContextItems(ps: seq<ParsedFile>): seq<Item>
  {
    seq(|ps|, i requires 0 <= i < |ps| => Item("ix_context", ps[i].sourceFileId, Contexts(ps[i].contexts), None))
  }

  /** The header item, filed under the head item key at position 0. */
  function HeaderItem(headItemKey: Option<string>, h: IxHeader): Item
  {
    Item("ix_head_title", headItemKey, Header(h), Some(0))
  }

  /** The flattened list of lists. */
  function Flatten(rows: seq<seq<IxNonNumeric>>): seq<IxNonNumeric>
  {
    if |rows| == 0 then [] else Flatten(rows[..|rows| - 1]) + rows[|rows| - 1]
  }

  /** All non-numeric facts of all parsers, in parser order. */
  function AllFacts(ps: seq<ParsedFile>): seq<IxNonNumeric>
  {
    Flatten(NonNumericRows(ps))
  }

  /** The header `__set_ix_header` builds. */
  function ManagerHeader(ps: seq<ParsedFile>, headItemKey: Option<string>): IxHeader
    requires AllNamed(AllFacts(ps))
  {
    HeaderOf(headItemKey, Fold(AllFacts(ps)))
  }

  /** Items in the order `__init_manager` adds them, around header item
      `hd`: the header step first extracts the non-numeric facts, then the
      header, the non-fraction facts and the contexts follow; the second
      non-numeric step reuses the cache. */
  function Assemble(ps: seq<ParsedFile>, hd: Item): seq<Item>
  {
    NonNumericItems(ps) + [hd] + NonFractionItems(ps) + ContextItems(ps)
  }

  /** The manager's items after initialisation. */
  function ManagerItems(ps: seq<ParsedFile>, headItemKey: Option<string>, d: int): seq<Item>
    requires AllNamed(AllFacts(ps))
  {
    SortByPosition(Assemble(ps, HeaderItem(headItemKey, ManagerHeader(ps, headItemKey))), d)
  }

  lemma {:induction false} CountKeyUniform(s: seq<Item>, k: string)
    ensures (forall i :: 0 <= i < |s| ==> s[i].key == k) ==> CountKey(s, k) == |s|
    ensures (forall i :: 0 <= i < |s| ==> s[i].key != k) ==> CountKey(s, k) == 0
    decreases |s|
  {
    if |s| > 0 {
      CountKeyUniform(s[..|s| - 1], k);
    }
  }

  lemma NonNumericItemsKeys(ps: seq<ParsedFile>, k: string)
    ensures CountKey(NonNumericItems(ps), k) == (if k == "ix_non_numeric" then |ps| else 0)
  {
    CountKeyUniform(NonNumericItems(ps), k);
  }

  lemma NonFractionItemsKeys(ps: seq<ParsedFile>, k: string)
    ensures CountKey(NonFractionItems(ps), k) == (if k == "ix_non_fraction" then |ps| else 0)
  {
    CountKeyUniform(NonFractionItems(ps), k);
  }

  lemma ContextItemsKeys(ps: seq<ParsedFile>, k: string)
    ensures CountKey(ContextItems(ps), k) == (if k == "ix_context" then |ps| else 0)
  {
    CountKeyUniform(ContextItems(ps), k);
  }

  /** How many items of each key the manager ends with, for any header item. */
  lemma AssembleKeyCount(ps: seq<ParsedFile>, hd: Item, d: int, k: string)
    ensures CountKey(SortByPosition(Assemble(ps, hd), d), k) ==
              (if k == "ix_non_numeric" then |ps| else 0) + (if k == "ix_non_fraction" then |ps| else 0) +
              (if k == "ix_context" then |ps| else 0) + (if hd.key == k then 1 else 0)
  {
    var nn := NonNumericItems(ps);
    var nf := NonFractionItems(ps);
    var cx := ContextItems(ps);
    CountKeyAppend(nn, [hd], k);
    CountKeyAppend(nn + [hd], nf, k);
    CountKeyAppend(nn + [hd] + nf, cx, k);
    SortKeepsKeyCounts(Assemble(ps, hd), d, k);
    NonNumericItemsKeys(ps, k);
    NonFractionItemsKeys(ps, k);
    ContextItemsKeys(ps, k);
    assert [hd][..0] == [];
  }

  /** Non-numeric extraction runs once however often it is asked for:
      after initialisation there is one `ix_non_numeric` item per parser,
      as there is one `ix_non_fraction` and one `ix_context` item, and
      exactly one header item. Stated for every header, since the counts
      do not depend on what the header holds. */
  lemma ItemsPerKey(ps: seq<ParsedFile>, headItemKey: Option<string>, h: IxHeader, d: int)
    ensures CountKey(SortByPosition(Assemble(ps, HeaderItem(headItemKey, h)), d), "ix_non_numeric") == |ps|
    ensures CountKey(SortByPosition(Assemble(ps, HeaderItem(headItemKey, h)), d), "ix_non_fraction") == |ps|
    ensures CountKey(SortByPosition(Assemble(ps, HeaderItem(headItemKey, h)), d), "ix_context") == |ps|
    ensures CountKey(SortByPosition(Assemble(ps, HeaderItem(headItemKey, h)), d), "ix_head_title") == 1
    ensures |SortByPosition(Assemble(ps, HeaderItem(headItemKey, h)), d)| == 3 * |ps| + 1
  {
    var hd := HeaderItem(headItemKey, h);
    AssembleKeyCount(ps, hd, d, "ix_non_numeric");
    AssembleKeyCount(ps, hd, d, "ix_non_fraction");
    AssembleKeyCount(ps, hd, d, "ix_context");
    AssembleKeyCount(ps, hd, d, "ix_head_title");
    SortIsSortedPermutation(Assemble(ps, hd), d);
    assert |SortByPosition(Assemble(ps, hd), d)| == |multiset(Assemble(ps, hd))|;
  }

  /** The sorted items are ordered by position and are a permutation of what
      was added. */
  lemma ManagerItemsSorted(ps: seq<ParsedFile>, hd: Item, d: int)
    ensures Sorted(SortByPosition(Assemble(ps, hd), d), d)
    ensures multiset(SortByPosition(Assemble(ps, hd), d)) == multiset(Assemble(ps, hd))
  {
    SortIsSortedPermutation(Assemble(ps, hd), d);
  }

  /** With a default position after 0 the header item comes first. */
  lemma HeaderFirst(ps: seq<ParsedFile>, headItemKey: Option<string>, h: IxHeader, d: int)
    requires d > 0
    ensures SortByPosition(Assemble(ps, HeaderItem(headItemKey, h)), d)[0] == HeaderItem(headItemKey, h)
  {
    var all := Assemble(ps, HeaderItem(headItemKey, h));
    var k := |NonNumericItems(ps)|;
    assert all[k] == HeaderItem(headItemKey, h);
    forall i | 0 <= i < |all| && i != k
      ensures Pos(all[k], d) < Pos(all[i], d)
    {
    }
    UniqueMinimumFirst(all, k, d);
  }

  /** With default position 0 the sort keeps the order of addition, so the
      non-numeric items come before the header. */
  lemma DefaultZeroKeepsOrder(ps: seq<ParsedFile>, headItemKey: Option<string>, h: IxHeader)
    ensures SortByPosition(Assemble(ps, HeaderItem(headItemKey, h)), 0) == Assemble(ps, HeaderItem(headItemKey, h))
  {
    var all := Assemble(ps, HeaderItem(headItemKey, h));
    forall i | 0 <= i < |all|
      ensures Pos(all[i], 0) == 0
    {
    }
    SortKeepsEqualPositions(all, 0, 0);
  }

  /** One loop iteration of `__set_ix_header` is one `Step`, and `Step`
      applies the rule the name selects. */
  lemma FoldSnoc(facts: seq<IxNonNumeric>, i: nat)
    requires i < |facts| && AllNamed(facts)
    ensures AllNamed(facts[..i]) && AllNamed(facts[..i + 1])
    ensures Fold(facts[..i + 1]) == Step(Fold(facts[..i]), facts[i])
  {
    assert facts[..i + 1][..i] == facts[..i];
  }

  lemma StepByRule(s: HeaderState, f: IxNonNumeric, rule: Rule)
    requires f.name.Some? && rule == Classify(f.name.value)
    ensures Step(s, f) == Apply(s.(reportType := f.reportType), rule, f)
  {
  }

  class IxbrlManager {
    var headItemKey: Option<string>
    /** The `sort_position` `_set_items` records when none is given; that
        helper is not part of this model, so the value is a parameter. */
    var defaultPosition: int
    var parsers: seq<ParsedFile>
    var ixNonFraction: Option<seq<seq<IxNonFraction>>>
    var ixNonNumeric: Option<seq<seq<IxNonNumeric>>>
    var ixContext: Option<seq<seq<IxContext>>>
    var ixHeader: Option<IxHeader>
    var items: seq<Item>

    /** The non-numeric cache, once filled, holds the parsers' facts. */
    predicate Valid()
      reads this
    {
      ixNonNumeric.Some? ==> ixNonNumeric.value == NonNumericRows(parsers)
    }

    /** The state `__init__` starts from: no parser, no item, nothing cached. */
    constructor (headItemKey: Option<string>, defaultPosition: int)
      ensures this.headItemKey == headItemKey && this.defaultPosition == defaultPosition
      ensures parsers == [] && items == []
      ensures ixNonFraction == None && ixNonNumeric == None && ixContext == None && ixHeader == None
      ensures Valid()
    {
      this.headItemKey := headItemKey;
      this.defaultPosition := defaultPosition;
      parsers := [];
      items := [];
      ixNonFraction := None;
      ixNonNumeric := None;
      ixContext := None;
      ixHeader := None;
    }

    /** `__init_parser`: keeps the files whose parser could be built. */
    method InitParser(outcomes: seq<ParseOutcome>)
      requires ixNonNumeric.None?
      modifies this
      ensures parsers == KeptParsers(outcomes)
      ensures headItemKey == old(headItemKey) && defaultPosition == old(defaultPosition) && items == old(items)
      ensures ixNonFraction == old(ixNonFraction) && ixNonNumeric == old(ixNonNumeric)
      ensures ixContext == old(ixContext) && ixHeader == old(ixHeader)
      ensures Valid()
    {
      var kept: seq<ParsedFile> := [];
      var i := 0;
      while i < |outcomes|
        invariant 0 <= i <= |outcomes|
        invariant kept == KeptParsers(outcomes[..i])
      {
        assert outcomes[..i + 1][..i] == outcomes[..i];
        match outcomes[i] {
          case Parsed(p) =>
            kept := kept + [p];
          case DocumentNameTagNotFound =>
        }
        i := i + 1;
      }
      assert outcomes[..i] == outcomes;
      parsers := kept;
    }

    /** `__set_ix_non_fraction`: one item per parser, and the rows cached. */
    method SetIxNonFraction()
      modifies this
      ensures ixNonFraction == Some(NonFractionRows(parsers))
      ensures items == old(items) + NonFractionItems(parsers)
      ensures headItemKey == old(headItemKey) && defaultPosition == old(defaultPosition) && parsers == old(parsers)
      ensures ixNonNumeric == old(ixNonNumeric) && ixContext == old(ixContext) && ixHeader == old(ixHeader)
    {
      var rows: seq<seq<IxNonFraction>> := [];
      var i := 0;
      while i < |parsers|
        invariant 0 <= i <= |parsers|
        invariant rows == NonFractionRows(parsers[..i])
        invariant items == old(items) + NonFractionItems(parsers[..i])
        invariant headItemKey == old(headItemKey) && defaultPosition == old(defaultPosition) && parsers == old(parsers)
        invariant ixNonNumeric == old(ixNonNumeric) && ixContext == old(ixContext) && ixHeader == old(ixHeader)
      {
        var p := parsers[i];
        rows := rows + [p.nonFractions];
        items := items + [Item("ix_non_fraction", p.sourceFileId, NonFractions(p.nonFractions), None)];
        i := i + 1;
      }
      assert parsers[..i] == parsers;
      ixNonFraction := Some(rows);
    }

    /** `__set_ix_non_numeric`: does nothing when the cache holds a
        non-empty list; otherwise one item per parser, and the rows cached. */
    method SetIxNonNumeric()
      requires Valid()
      modifies this
      ensures Valid()
      ensures old(ixNonNumeric).Some? && |old(ixNonNumeric).value| > 0 ==>
                (items == old(items) && ixNonNumeric == old(ixNonNumeric))
      ensures !(old(ixNonNumeric).Some? && |old(ixNonNumeric).value| > 0) ==>
                (items == old(items) + NonNumericItems(parsers) && ixNonNumeric == Some(NonNumericRows(parsers)))
      ensures headItemKey == old(headItemKey) && defaultPosition == old(defaultPosition) && parsers == old(parsers)
      ensures ixNonFraction == old(ixNonFraction) && ixContext == old(ixContext) && ixHeader == old(ixHeader)
    {
      if ixNonNumeric.Some? && |ixNonNumeric.value| > 0 {
        return;
      }
      var rows: seq<seq<IxNonNumeric>> := [];
      var i := 0;
      while i < |parsers|
        invariant 0 <= i <= |parsers|
        invariant rows == NonNumericRows(parsers[..i])
        invariant items == old(items) + NonNumericItems(parsers[..i])
        invariant headItemKey == old(headItemKey) && defaultPosition == old(defaultPosition) && parsers == old(parsers)
        invariant ixNonNumeric == old(ixNonNumeric) && ixNonFraction == old(ixNonFraction)
        invariant ixContext == old(ixContext) && ixHeader == old(ixHeader)
      {
        var p := parsers[i];
        rows := rows + [p.nonNumerics];
        items := items + [Item("ix_non_numeric", p.sourceFileId, NonNumerics(p.nonNumerics), None)];
        i := i + 1;
      }
      assert parsers[..i] == parsers;
      ixNonNumeric := Some(rows);
    }

    /** `__set_ix_context`: one item per parser, and the rows cached. */
    method SetIxContext()
      modifies this
      ensures ixContext == Some(ContextRows(parsers))
      ensures items == old(items) + ContextItems(parsers)
      ensures headItemKey == old(headItemKey) && defaultPosition == old(defaultPosition) && parsers == old(parsers)
      ensures ixNonNumeric == old(ixNonNumeric) && ixNonFraction == old(ixNonFraction) && ixHeader == old(ixHeader)
    {
      var rows: seq<seq<IxContext>> := [];
      var i := 0;
      while i < |parsers|
        invariant 0 <= i <= |parsers|
        invariant rows == ContextRows(parsers[..i])
        invariant items == old(items) + ContextItems(parsers[..i])
        invariant headItemKey == old(headItemKey) && defaultPosition == old(defaultPosition) && parsers == old(parsers)
        invariant ixNonNumeric == old(ixNonNumeric) && ixNonFraction == old(ixNonFraction) && ixHeader == old(ixHeader)
      {
        var p := parsers[i];
        rows := rows + [p.contexts];
        items := items + [Item("ix_context", p.sourceFileId, Contexts(p.contexts), None)];
        i := i + 1;
      }
      assert parsers[..i] == parsers;
      ixContext := Some(rows);
    }

    /** `__set_ix_header`: extracts the non-numeric facts if that has not
        happened, folds the `elif` table over them, and adds the header item
        at position 0. */
    method SetIxHeader()
      requires Valid() && AllNamed(AllFacts(parsers))
      modifies this
      ensures headItemKey == old(headItemKey) && defaultPosition == old(defaultPosition) && parsers == old(parsers)
      ensures Valid() && ixNonNumeric == Some(NonNumericRows(parsers))
      ensures ixHeader == Some(ManagerHeader(parsers, headItemKey))
      ensures items == old(items) + (if old(ixNonNumeric).None? then NonNumericItems(parsers) else []) +
                       [HeaderItem(headItemKey, ManagerHeader(parsers, headItemKey))]
      ensures ixNonFraction == old(ixNonFraction) && ixContext == old(ixContext)
    {
      // The eighteen variables of the source start as in `Initial`: strings
      // unset and the six statement flags false.
      var st := Initial;

      if ixNonNumeric.None? {
        SetIxNonNumeric();
      }

      var facts := Flatten(ixNonNumeric.value);
      var i := 0;
      while i < |facts|
        modifies {}
        invariant 0 <= i <= |facts| && AllNamed(facts[..i])
        invariant st == Fold(facts[..i])
      {
        var item := facts[i];
        FoldSnoc(facts, i);
        st := st.(reportType := item.reportType);
        var rule := Classify(item.name.value);
        StepByRule(Fold(facts[..i]), item, rule);
        match rule {
          case CompanyNameRule => st := st.(companyName := item.value);
          case SecuritiesCodeRule => st := st.(securitiesCode := item.value);
          case DocumentNameRule => st := st.(documentName := item.value);
          case ReportingDateRule => st := st.(reportingDate := item.value);
          case CurrentPeriodRule => st := st.(currentPeriod := item.value);
          case UrlRule => st := st.(url := item.value);
          case FiscalYearEndRule => st := st.(fiscalYearEnd := item.value);
          case TelRule => st := st.(tel := item.value);
          case SpecificBusinessRule => st := st.(specificBusiness := Some(item.value == Some("true")));
          case ListedMarketRule =>
            if item.format == Some("booleantrue") || item.value == Some("true") {
              st := st.(listedMarket := Some(TokyoStockExchangeName));
            }
          case MarketSectionRule =>
            if item.format == Some("booleantrue") || item.value == Some("true") {
              st := st.(marketSection := item.name);
            }
          case BsRule => st := st.(isBs := true);
          case PlRule => st := st.(isPl := true);
          case CfRule => st := st.(isCf := true);
          case CiRule => st := st.(isCi := true);
          case SceRule => st := st.(isSce := true);
          case SfpRule => st := st.(isSfp := true);
          case NoRule =>
        }
        i := i + 1;
      }
      assert facts[..i] == facts;

      var header := HeaderOf(headItemKey, st);
      ixHeader := Some(header);
      items := items + [HeaderItem(headItemKey, header)];
    }

    /** `__init_manager`: the header (which extracts the non-numeric facts
        first), the non-fraction facts, the non-numeric facts again (a no-op
        on the filled cache), the contexts, and then the stable sort by
        position. */
    method InitManager()
      requires Valid() && ixNonNumeric.None? && AllNamed(AllFacts(parsers))
      modifies this
      ensures headItemKey == old(headItemKey) && defaultPosition == old(defaultPosition) && parsers == old(parsers)
      ensures Valid() && ixNonNumeric == Some(NonNumericRows(parsers))
      ensures ixNonFraction == Some(NonFractionRows(parsers)) && ixContext == Some(ContextRows(parsers))
      ensures ixHeader == Some(ManagerHeader(parsers, headItemKey))
      ensures items == SortByPosition(old(items) + Assemble(parsers, HeaderItem(headItemKey, ManagerHeader(parsers, headItemKey))),
                                      defaultPosition)
    {
      ghost var hd := HeaderItem(headItemKey, ManagerHeader(parsers, headItemKey));
      SetIxHeader();
      assert items == old(items) + NonNumericItems(parsers) + [hd];
      SetIxNonFraction();
      SetIxNonNumeric();
      assert |parsers| == 0 ==> NonNumericItems(parsers) == [];
      assert items == old(items) + NonNumericItems(parsers) + [hd] + NonFractionItems(parsers);
      SetIxContext();
      assert items == old(items) + Assemble(parsers, hd);
      items := SortByPosition(items, defaultPosition);
    }

    /** `__init__`: fails with `XbrlListEmptyError` when the archive lists
        no ixbrl file; otherwise builds the parsers and the items. */
    static method New(outcomes: seq<ParseOutcome>, headItemKey: Option<string>, defaultPosition: int)
      returns (r: Result<IxbrlManager, ManagerError>)
      requires AllNamed(AllFacts(KeptParsers(outcomes)))
      ensures r.Failure? <==> |outcomes| == 0
      ensures r.Failure? ==> r.error == XbrlListEmpty(XbrlListEmptyMessage)
      ensures r.Success? ==> fresh(r.value) && r.value.Valid() && r.value.headItemKey == headItemKey &&
                             r.value.defaultPosition == defaultPosition && r.value.parsers == KeptParsers(outcomes)
      ensures r.Success? ==> r.value.items == ManagerItems(KeptParsers(outcomes), headItemKey, defaultPosition)
      ensures r.Success? ==> r.value.ixHeader == Some(ManagerHeader(KeptParsers(outcomes), headItemKey))
      ensures r.Success? ==> r.value.ixNonNumeric == Some(NonNumericRows(KeptParsers(outcomes))) &&
                             r.value.ixNonFraction == Some(NonFractionRows(KeptParsers(outcomes))) &&
                             r.value.ixContext == Some(ContextRows(KeptParsers(outcomes)))
    {
      if |outcomes| == 0 {
        return Failure(XbrlListEmpty(XbrlListEmptyMessage));
      }
      var m := new IxbrlManager(headItemKey, defaultPosition);
      m.InitParser(outcomes);
      m.InitManager();
      assert [] + Assemble(m.parsers, HeaderItem(headItemKey, ManagerHeader(m.parsers, headItemKey))) ==
             Assemble(m.parsers, HeaderItem(headItemKey, ManagerHeader(m.parsers, headItemKey)));
      return Success(m);
    }
  }
}
