/** app/ix_tag/ixbrl.py: the records for inline-XBRL facts, contexts and the
    per-document header, and the derivation of their `item_key`. */
module IxTag {
  import opened Common
  import opened TagBase

  /** Python truthiness of an `Optional[List[str]]` field. */
  predicate ListTruthy(v: Option<seq<string>>)
  {
    v.Some? && |v.value| > 0
  }

  /** What an f-string prints for an `Optional[List[str]]` field. */
  function RenderList(p: Primitives, v: Option<seq<string>>): string
  {
    match v
    case None => "None"
    case Some(l) => p.listText(l)
  }

  /** `IxNonNumeric`: one non-numeric tagged fact. */
  datatype IxNonNumeric = IxNonNumeric(
    headItemKey: Option<string>,
    context: Option<seq<string>>,
    name: Option<string>,
    xsiNil: Option<bool>,
    escape: Option<bool>,
    format: Option<string>,
    value: Option<string>,
    reportType: Option<string>,
    ixbrlRole: Option<string>,
    sourceFileId: Option<string>,
    xbrlType: Option<string>)

  /** The fields `IxNonNumeric` hashes, in the order it hashes them. */
  function NonNumericHashInput(p: Primitives, r: IxNonNumeric): seq<string>
  {
    [Render(r.name), RenderList(p, r.context), Render(r.headItemKey), Render(r.value),
     Render(r.xbrlType), Render(r.ixbrlRole), Render(r.sourceFileId)]
  }

  function NonNumericKey(p: Primitives, r: IxNonNumeric): Option<string>
  {
    DeriveKey(p, Truthy(r.name) && ListTruthy(r.context) && Truthy(r.headItemKey),
              NonNumericHashInput(p, r), None)
  }

  /** Two facts that agree on every hashed field. */
  predicate NonNumericSameHashed(r: IxNonNumeric, s: IxNonNumeric)
  {
    r.name == s.name && r.context == s.context && r.headItemKey == s.headItemKey &&
    r.value == s.value && r.xbrlType == s.xbrlType && r.ixbrlRole == s.ixbrlRole &&
    r.sourceFileId == s.sourceFileId
  }

  /** The key exists exactly when name, context and head key are non-empty; it
      is uuid5 of the seven hashed fields joined with `_`; and `format`,
      `escape`, `xsi_nil` and `report_type` never change it. */
  lemma NonNumericKeySpec(p: Primitives, r: IxNonNumeric, s: IxNonNumeric)
    ensures NonNumericKey(p, r).Some? <==>
              Truthy(r.name) && ListTruthy(r.context) && Truthy(r.headItemKey)
    ensures NonNumericKey(p, r).Some? ==>
              NonNumericKey(p, r).value == p.uuid5(Join(NonNumericHashInput(p, r), '_'))
    ensures NonNumericSameHashed(r, s) ==> NonNumericKey(p, r) == NonNumericKey(p, s)
  {
  }

  /** The fact's value is part of what is hashed: two facts that differ only
      in their value feed different text to uuid5. */
  lemma NonNumericValueIsHashed(p: Primitives, r: IxNonNumeric, v: Option<string>)
    requires Render(v) != Render(r.value)
    ensures Join(NonNumericHashInput(p, r.(value := v)), '_') != Join(NonNumericHashInput(p, r), '_')
  {
    var pre := [Render(r.name), RenderList(p, r.context), Render(r.headItemKey)];
    var post := [Render(r.xbrlType), Render(r.ixbrlRole), Render(r.sourceFileId)];
    assert NonNumericHashInput(p, r.(value := v)) == pre + [Render(v)] + post;
    assert NonNumericHashInput(p, r) == pre + [Render(r.value)] + post;
    JoinDiffersAt(pre, Render(v), Render(r.value), post, '_');
  }

  /** `IxNonFraction`: one numeric tagged fact. */
  datatype IxNonFraction = IxNonFraction(
    headItemKey: Option<string>,
    context: Option<seq<string>>,
    name: Option<string>,
    unitRef: Option<string>,
    xsiNil: Option<bool>,
    decimals: Option<string>,
    format: Option<string>,
    scale: Option<string>,
    numeric: Option<string>,
    reportType: Option<string>,
    ixbrlRole: Option<string>,
    sourceFileId: Option<string>,
    xbrlType: Option<string>,
    sign: Option<string>,
    displayNumeric: Option<string>,
    displayScale: Option<string>)

  function NonFractionHashInput(p: Primitives, r: IxNonFraction): seq<string>
  {
    [Render(r.name), RenderList(p, r.context), Render(r.headItemKey), Render(r.numeric),
     Render(r.xbrlType), Render(r.ixbrlRole), Render(r.sourceFileId)]
  }

  function NonFractionKey(p: Primitives, r: IxNonFraction): Option<string>
  {
    DeriveKey(p, Truthy(r.name) && ListTruthy(r.context) && Truthy(r.headItemKey),
              NonFractionHashInput(p, r), None)
  }

  predicate NonFractionSameHashed(r: IxNonFraction, s: IxNonFraction)
  {
    r.name == s.name && r.context == s.context && r.headItemKey == s.headItemKey &&
    r.numeric == s.numeric && r.xbrlType == s.xbrlType && r.ixbrlRole == s.ixbrlRole &&
    r.sourceFileId == s.sourceFileId
  }

  /** Same gate and same tuple as the non-numeric fact, with `numeric` in the
      place of `value`; unit, decimals, scale, sign, format, report type and
      the display fields never change the key. */
  lemma NonFractionKeySpec(p: Primitives, r: IxNonFraction, s: IxNonFraction)
    ensures NonFractionKey(p, r).Some? <==>
              Truthy(r.name) && ListTruthy(r.context) && Truthy(r.headItemKey)
    ensures NonFractionKey(p, r).Some? ==>
              NonFractionKey(p, r).value == p.uuid5(Join(NonFractionHashInput(p, r), '_'))
    ensures NonFractionSameHashed(r, s) ==> NonFractionKey(p, r) == NonFractionKey(p, s)
  {
  }

  /** A numeric fact and a non-numeric fact whose shared fields agree, with the
      number's text equal to the value, are hashed from the same text. */
  lemma FactKindsShareTuple(p: Primitives, n: IxNonNumeric, f: IxNonFraction)
    requires n.name == f.name && n.context == f.context && n.headItemKey == f.headItemKey
    requires n.value == f.numeric && n.xbrlType == f.xbrlType && n.ixbrlRole == f.ixbrlRole
    requires n.sourceFileId == f.sourceFileId
    ensures NonNumericKey(p, n) == NonFractionKey(p, f)
  {
  }

  /** `IxHeader`: the per-document summary. It derives no key: `item_key` is
      whatever the caller passes. */
  datatype IxHeader = IxHeader(
    itemKey: Option<string>,
    companyName: Option<string>,
    securitiesCode: Option<string>,
    documentName: Option<string>,
    reportingDate: Option<string>,
    currentPeriod: Option<string>,
    reportType: Option<string>,
    listedMarket: Option<string>,
    marketSection: Option<string>,
    url: Option<string>,
    isBs: Option<bool>,
    isPl: Option<bool>,
    isCf: Option<bool>,
    isCi: Option<bool>,
    isSce: Option<bool>,
    isSfp: Option<bool>,
    fyYearEnd: Option<string>,
    tel: Option<string>,
    specificBusiness: Option<bool>)

  /** `IxContext`: a reporting context. */
  datatype IxContext = IxContext(
    headItemKey: Option<string>,
    contextId: Option<string>,
    period: Option<map<string, string>>,
    scenario: Option<seq<string>>,
    sourceFileId: Option<string>)

  function ContextKey(p: Primitives, r: IxContext): Option<string>
  {
    DeriveKey(p, Truthy(r.contextId) && Truthy(r.headItemKey),
              [Render(r.contextId), Render(r.headItemKey)], None)
  }

  /** The key exists exactly when the context id and head key are non-empty,
      and depends on those two only: period, scenario and source file do not
      enter it. */
  lemma ContextKeySpec(p: Primitives, r: IxContext, s: IxContext)
    ensures ContextKey(p, r).Some? <==> Truthy(r.contextId) && Truthy(r.headItemKey)
    ensures ContextKey(p, r).Some? ==>
              ContextKey(p, r).value == p.uuid5(r.contextId.value + "_" + r.headItemKey.value)
    ensures r.contextId == s.contextId && r.headItemKey == s.headItemKey ==>
              ContextKey(p, r) == ContextKey(p, s)
  {
    JoinTwo(Render(r.contextId), Render(r.headItemKey), '_');
  }
}
