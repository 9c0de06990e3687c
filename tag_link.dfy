/** app/ix_tag/link.py: the records of a taxonomy linkbase graph and the
    derivation of their `item_key`. */
module LinkTag {
  import opened Common
  import opened TagBase

  datatype LinkSchemaImport = LinkSchemaImport(
    headItemKey: Option<string>,
    schemaLocation: Option<string>,
    nameSpace: Option<string>,
    documentType: Option<string>)

  function SchemaImportKey(p: Primitives, r: LinkSchemaImport): Option<string>
  {
    DeriveKey(p, Truthy(r.schemaLocation) && Truthy(r.nameSpace),
              [Render(r.schemaLocation), Render(r.nameSpace), Render(r.documentType), Render(r.headItemKey)], None)
  }

  /** Set exactly when location and namespace are non-empty; hashes location,
      namespace, document type and head key, in that order (the head key is
      hashed but does not gate). */
  lemma SchemaImportKeySpec(p: Primitives, r: LinkSchemaImport)
    ensures SchemaImportKey(p, r).Some? <==> Truthy(r.schemaLocation) && Truthy(r.nameSpace)
    ensures SchemaImportKey(p, r).Some? ==> (SchemaImportKey(p, r).value ==
              p.uuid5(Join([r.schemaLocation.value, r.nameSpace.value, Render(r.documentType), Render(r.headItemKey)], '_')))
  {
  }

  datatype LinkBaseRef = LinkBaseRef(
    headItemKey: Option<string>,
    xlinkType: Option<string>,
    xlinkHref: Option<string>,
    xlinkRole: Option<string>,
    xlinkArcrole: Option<string>,
    documentType: Option<string>)

  function BaseRefKey(p: Primitives, r: LinkBaseRef): Option<string>
  {
    DeriveKey(p, Truthy(r.xlinkHref) && Truthy(r.xlinkRole),
              [Render(r.xlinkHref), Render(r.xlinkRole), Render(r.documentType), Render(r.headItemKey)], None)
  }

  /** Set exactly when href and role are non-empty; `xlink_type` and
      `xlink_arcrole` are not hashed. */
  lemma BaseRefKeySpec(p: Primitives, r: LinkBaseRef, t: Option<string>, a: Option<string>)
    ensures BaseRefKey(p, r).Some? <==> Truthy(r.xlinkHref) && Truthy(r.xlinkRole)
    ensures BaseRefKey(p, r.(xlinkType := t, xlinkArcrole := a)) == BaseRefKey(p, r)
  {
  }

  datatype LinkElement = LinkElement(
    headItemKey: Option<string>,
    id: Option<string>,
    xbrliBalance: Option<string>,
    xbrliPeriodType: Option<string>,
    name: Option<string>,
    nillable: Option<string>,
    substitutionGroup: Option<string>,
    elementType: Option<string>,
    isAbstract: Option<string>,
    documentType: Option<string>)

  function ElementKey(p: Primitives, r: LinkElement): Option<string>
  {
    DeriveKey(p, Truthy(r.name) && Truthy(r.elementType),
              [Render(r.name), Render(r.elementType), Render(r.documentType), Render(r.headItemKey)], None)
  }

  /** Set exactly when name and type are non-empty; id, balance, period
      type, nillable, substitution group and abstract flag are not hashed. */
  lemma ElementKeySpec(p: Primitives, r: LinkElement, s: LinkElement)
    ensures ElementKey(p, r).Some? <==> Truthy(r.name) && Truthy(r.elementType)
    ensures (r.name == s.name && r.elementType == s.elementType && r.documentType == s.documentType &&
            r.headItemKey == s.headItemKey) ==> ElementKey(p, r) == ElementKey(p, s)
  {
  }

  datatype LinkRole = LinkRole(
    headItemKey: Option<string>,
    xlinkType: Option<string>,
    xlinkSchema: Option<string>,
    xlinkHref: Option<string>,
    roleUri: Option<string>)

  function RoleKey(p: Primitives, r: LinkRole): Option<string>
  {
    DeriveKey(p, Truthy(r.roleUri) && Truthy(r.xlinkSchema),
              [Render(r.roleUri), Render(r.xlinkSchema), Render(r.xlinkType), Render(r.xlinkHref), Render(r.headItemKey)], None)
  }

  /** Set exactly when the role URI and schema are non-empty; hashes all five
      fields, role URI first. */
  lemma RoleKeySpec(p: Primitives, r: LinkRole)
    ensures RoleKey(p, r).Some? <==> Truthy(r.roleUri) && Truthy(r.xlinkSchema)
    ensures RoleKey(p, r).Some? ==> (RoleKey(p, r).value ==
              p.uuid5(Join([r.roleUri.value, r.xlinkSchema.value, Render(r.xlinkType), Render(r.xlinkHref), Render(r.headItemKey)], '_')))
  {
  }

  datatype LinkLoc = LinkLoc(
    headItemKey: Option<string>,
    attrValue: Option<string>,
    xlinkType: Option<string>,
    xlinkSchema: Option<string>,
    xlinkHref: Option<string>,
    xlinkLabel: Option<string>,
    sourceFileId: Option<string>)

  function LocHashInput(r: LinkLoc): seq<string>
  {
    [Render(r.xlinkLabel), Render(r.xlinkSchema), Render(r.xlinkType), Render(r.xlinkHref),
     Render(r.sourceFileId), Render(r.headItemKey), Render(r.attrValue)]
  }

  function LocKey(p: Primitives, r: LinkLoc): Option<string>
  {
    DeriveKey(p, Truthy(r.xlinkLabel) && Truthy(r.xlinkSchema), LocHashInput(r), None)
  }

  /** Set exactly when label and schema are non-empty; hashes all seven
      attribute fields, label first and attribute value last. */
  lemma LocKeySpec(p: Primitives, r: LinkLoc)
    ensures LocKey(p, r).Some? <==> Truthy(r.xlinkLabel) && Truthy(r.xlinkSchema)
    ensures LocKey(p, r).Some? ==> LocKey(p, r).value == p.uuid5(Join(LocHashInput(r), '_'))
    ensures |LocHashInput(r)| == 7 && LocHashInput(r)[0] == Render(r.xlinkLabel) &&
            LocHashInput(r)[6] == Render(r.attrValue)
  {
  }

  /** `xlink_order` and `xlink_weight` are floats in the source; the model
      carries the text an f-string prints for them. */
  datatype LinkArc = LinkArc(
    headItemKey: Option<string>,
    attrValue: Option<string>,
    xlinkType: Option<string>,
    xlinkFrom: Option<string>,
    xlinkTo: Option<string>,
    xlinkArcrole: Option<string>,
    xlinkOrder: Option<string>,
    xlinkWeight: Option<string>,
    sourceFileId: Option<string>)

  function ArcHashInput(r: LinkArc): seq<string>
  {
    [Render(r.xlinkFrom), Render(r.xlinkTo), Render(r.xlinkType), Render(r.xlinkArcrole),
     Render(r.sourceFileId), Render(r.attrValue), Render(r.xlinkOrder), Render(r.xlinkWeight),
     Render(r.headItemKey)]
  }

  function ArcKey(p: Primitives, r: LinkArc): Option<string>
  {
    DeriveKey(p, Truthy(r.xlinkFrom) && Truthy(r.xlinkTo), ArcHashInput(r), None)
  }

  lemma ArcKeySpec(p: Primitives, r: LinkArc)
    ensures ArcKey(p, r).Some? <==> Truthy(r.xlinkFrom) && Truthy(r.xlinkTo)
    ensures ArcKey(p, r).Some? ==> ArcKey(p, r).value == p.uuid5(Join(ArcHashInput(r), '_'))
  {
  }

  /** Order is part of the key: the same edge with a different order feeds
      different text to uuid5. */
  lemma ArcOrderIsHashed(r: LinkArc, order: Option<string>)
    requires Render(order) != Render(r.xlinkOrder)
    ensures Join(ArcHashInput(r.(xlinkOrder := order)), '_') != Join(ArcHashInput(r), '_')
  {
    var pre := [Render(r.xlinkFrom), Render(r.xlinkTo), Render(r.xlinkType), Render(r.xlinkArcrole),
                Render(r.sourceFileId), Render(r.attrValue)];
    var post := [Render(r.xlinkWeight), Render(r.headItemKey)];
    assert ArcHashInput(r.(xlinkOrder := order)) == pre + [Render(order)] + post;
    assert ArcHashInput(r) == pre + [Render(r.xlinkOrder)] + post;
    JoinDiffersAt(pre, Render(order), Render(r.xlinkOrder), post, '_');
  }

  /** Weight is part of the key as well. */
  lemma ArcWeightIsHashed(r: LinkArc, weight: Option<string>)
    requires Render(weight) != Render(r.xlinkWeight)
    ensures Join(ArcHashInput(r.(xlinkWeight := weight)), '_') != Join(ArcHashInput(r), '_')
  {
    var pre := [Render(r.xlinkFrom), Render(r.xlinkTo), Render(r.xlinkType), Render(r.xlinkArcrole),
                Render(r.sourceFileId), Render(r.attrValue), Render(r.xlinkOrder)];
    var post := [Render(r.headItemKey)];
    assert ArcHashInput(r.(xlinkWeight := weight)) == pre + [Render(weight)] + post;
    assert ArcHashInput(r) == pre + [Render(r.xlinkWeight)] + post;
    JoinDiffersAt(pre, Render(weight), Render(r.xlinkWeight), post, '_');
  }

  datatype LinkBase = LinkBase(
    headItemKey: Option<string>,
    xmlnsXlink: Option<string>,
    xmlnsXsi: Option<string>,
    xmlnsLink: Option<string>)

  function LinkBaseKey(p: Primitives, r: LinkBase): Option<string>
  {
    DeriveKey(p, Truthy(r.xmlnsXlink) && Truthy(r.xmlnsXsi),
              [Render(r.xmlnsXlink), Render(r.xmlnsXsi), Render(r.xmlnsLink), Render(r.headItemKey)], None)
  }

  /** Gated by `xmlns_xlink` and `xmlns_xsi`; `xmlns_link` is hashed but does
      not gate. */
  lemma LinkBaseKeySpec(p: Primitives, r: LinkBase)
    ensures LinkBaseKey(p, r).Some? <==> Truthy(r.xmlnsXlink) && Truthy(r.xmlnsXsi)
    ensures LinkBaseKey(p, r).Some? ==> (LinkBaseKey(p, r).value ==
              p.uuid5(Join([r.xmlnsXlink.value, r.xmlnsXsi.value, Render(r.xmlnsLink), Render(r.headItemKey)], '_')))
  {
  }

  datatype LinkTagRecord = LinkTagRecord(
    headItemKey: Option<string>,
    xlinkType: Option<string>,
    xlinkRole: Option<string>)

  function LinkTagKey(p: Primitives, r: LinkTagRecord): Option<string>
  {
    DeriveKey(p, Truthy(r.xlinkType) && Truthy(r.xlinkRole),
              [Render(r.xlinkType), Render(r.xlinkRole), Render(r.headItemKey)], None)
  }

  lemma LinkTagKeySpec(p: Primitives, r: LinkTagRecord)
    ensures LinkTagKey(p, r).Some? <==> Truthy(r.xlinkType) && Truthy(r.xlinkRole)
    ensures LinkTagKey(p, r).Some? ==> (LinkTagKey(p, r).value ==
              p.uuid5(Join([r.xlinkType.value, r.xlinkRole.value, Render(r.headItemKey)], '_')))
  {
  }

  /** The `_`-joined hash input is not injective: two different link tags can
      feed the same text to uuid5 and so get the same key. */
  lemma LinkTagKeysCollide(p: Primitives)
    ensures LinkTagKey(p, LinkTagRecord(Some("h"), Some("a_b"), Some("c"))) ==
            LinkTagKey(p, LinkTagRecord(Some("h"), Some("a"), Some("b_c")))
  {
    assert Join(["a_b", "c", "h"], '_') == "a_b_c_h";
    assert Join(["a", "b_c", "h"], '_') == "a_b_c_h";
  }
}
