/** app/ix_tag/schema.py: records of a taxonomy schema and the derivation of
    their `item_key`. */
module SchemaTag {
  import opened Common
  import opened TagBase

  datatype SchemaImport = SchemaImport(
    schemaLocation: Option<string>,
    nameSpace: Option<string>,
    xbrlType: Option<string>,
    headItemKey: Option<string>,
    sourceFileId: Option<string>)

  function SchemaImportKey(p: Primitives, r: SchemaImport): Option<string>
  {
    DeriveKey(p, Truthy(r.schemaLocation) && Truthy(r.nameSpace),
              [Render(r.schemaLocation), Render(r.nameSpace), Render(r.xbrlType), Render(r.headItemKey)], None)
  }

  /** Set exactly when location and namespace are non-empty; the source file
      id is not hashed. */
  lemma SchemaImportKeySpec(p: Primitives, r: SchemaImport, src: Option<string>)
    ensures SchemaImportKey(p, r).Some? <==> Truthy(r.schemaLocation) && Truthy(r.nameSpace)
    ensures SchemaImportKey(p, r).Some? ==> (SchemaImportKey(p, r).value ==
              p.uuid5(Join([r.schemaLocation.value, r.nameSpace.value, Render(r.xbrlType), Render(r.headItemKey)], '_')))
    ensures SchemaImportKey(p, r.(sourceFileId := src)) == SchemaImportKey(p, r)
  {
  }

  datatype SchemaLinkBaseRef = SchemaLinkBaseRef(
    xlinkType: Option<string>,
    xlinkHref: Option<string>,
    xlinkRole: Option<string>,
    xlinkArcrole: Option<string>,
    xbrlType: Option<string>,
    headItemKey: Option<string>,
    sourceFileId: Option<string>,
    hrefSourceFileId: Option<string>)

  function LinkBaseRefKey(p: Primitives, r: SchemaLinkBaseRef): Option<string>
  {
    DeriveKey(p, Truthy(r.xlinkHref) && Truthy(r.xlinkRole),
              [Render(r.xlinkHref), Render(r.xlinkRole), Render(r.xbrlType), Render(r.headItemKey)], None)
  }

  /** Set exactly when href and role are non-empty; type, arc role and both
      source file ids never change it. */
  lemma LinkBaseRefKeySpec(p: Primitives, r: SchemaLinkBaseRef, t: Option<string>, a: Option<string>,
                           src: Option<string>, hrefSrc: Option<string>)
    ensures LinkBaseRefKey(p, r).Some? <==> Truthy(r.xlinkHref) && Truthy(r.xlinkRole)
    ensures LinkBaseRefKey(p, r.(xlinkType := t, xlinkArcrole := a, sourceFileId := src, hrefSourceFileId := hrefSrc)) ==
            LinkBaseRefKey(p, r)
  {
  }

  datatype SchemaElement = SchemaElement(
    id: Option<string>,
    xbrliBalance: Option<string>,
    xbrliPeriodType: Option<string>,
    name: Option<string>,
    nillable: Option<string>,
    substitutionGroup: Option<string>,
    elementType: Option<string>,
    isAbstract: Option<string>,
    xbrlType: Option<string>,
    headItemKey: Option<string>,
    sourceFileId: Option<string>)

  function ElementKey(p: Primitives, r: SchemaElement): Option<string>
  {
    DeriveKey(p, Truthy(r.name) && Truthy(r.headItemKey), [Render(r.name), Render(r.headItemKey)], None)
  }

  /** Set exactly when name and head key are non-empty, and determined by
      those two fields alone. */
  lemma ElementKeySpec(p: Primitives, r: SchemaElement, s: SchemaElement)
    ensures ElementKey(p, r).Some? <==> Truthy(r.name) && Truthy(r.headItemKey)
    ensures ElementKey(p, r).Some? ==> ElementKey(p, r).value == p.uuid5(r.name.value + "_" + r.headItemKey.value)
    ensures r.name == s.name && r.headItemKey == s.headItemKey ==> ElementKey(p, r) == ElementKey(p, s)
  {
    JoinTwo(Render(r.name), Render(r.headItemKey), '_');
  }
}
