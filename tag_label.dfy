/** app/ix_tag/label.py: records of a label linkbase. Unlike the other
    records these write the derived value into the 36-character `id` field,
    and none of them hashes the document (head) key. */
module LabelTag {
  import opened Common
  import opened TagBase

  datatype LabelValue = LabelValue(
    id: Option<string>,
    xlinkType: Option<string>,
    xlinkLabel: Option<string>,
    xlinkRole: Option<string>,
    xmlLang: Option<string>,
    labelText: Option<string>,
    sourceFileId: Option<string>)

  /** The `id` after construction: derived when label and role are non-empty,
      otherwise the id the caller supplied (none by default). */
  function LabelValueId(p: Primitives, r: LabelValue): Option<string>
  {
    DeriveKey(p, Truthy(r.xlinkLabel) && Truthy(r.xlinkRole),
              [Render(r.xlinkLabel), Render(r.xlinkRole), Render(r.sourceFileId), Render(r.xlinkType), Render(r.xmlLang)], r.id)
  }

  /** Derived exactly when label and role are non-empty; the label text is not
      hashed, so labels differing only in their text share an id. */
  lemma LabelValueIdSpec(p: Primitives, r: LabelValue, text: Option<string>)
    ensures Truthy(r.xlinkLabel) && Truthy(r.xlinkRole) ==> (LabelValueId(p, r) ==
              Some(p.uuid5(Join([r.xlinkLabel.value, r.xlinkRole.value, Render(r.sourceFileId), Render(r.xlinkType), Render(r.xmlLang)], '_'))))
    ensures !(Truthy(r.xlinkLabel) && Truthy(r.xlinkRole)) ==> LabelValueId(p, r) == r.id
    ensures LabelValueId(p, r.(labelText := text)) == LabelValueId(p, r)
  {
  }

  datatype LabelLoc = LabelLoc(
    id: Option<string>,
    xlinkType: Option<string>,
    xlinkLabel: Option<string>,
    xlinkSchema: Option<string>,
    xlinkHref: Option<string>,
    sourceFileId: Option<string>)

  function LabelLocId(p: Primitives, r: LabelLoc): Option<string>
  {
    DeriveKey(p, Truthy(r.xlinkLabel) && Truthy(r.xlinkSchema),
              [Render(r.xlinkLabel), Render(r.xlinkSchema), Render(r.sourceFileId), Render(r.xlinkType), Render(r.xlinkHref)], r.id)
  }

  lemma LabelLocIdSpec(p: Primitives, r: LabelLoc)
    ensures Truthy(r.xlinkLabel) && Truthy(r.xlinkSchema) ==> (LabelLocId(p, r) ==
              Some(p.uuid5(Join([r.xlinkLabel.value, r.xlinkSchema.value, Render(r.sourceFileId), Render(r.xlinkType), Render(r.xlinkHref)], '_'))))
    ensures !(Truthy(r.xlinkLabel) && Truthy(r.xlinkSchema)) ==> LabelLocId(p, r) == r.id
  {
  }

  datatype LabelArc = LabelArc(
    id: Option<string>,
    xlinkType: Option<string>,
    xlinkFrom: Option<string>,
    xlinkTo: Option<string>,
    xlinkArcrole: Option<string>,
    sourceFileId: Option<string>)

  function LabelArcId(p: Primitives, r: LabelArc): Option<string>
  {
    DeriveKey(p, Truthy(r.xlinkFrom) && Truthy(r.xlinkTo),
              [Render(r.xlinkFrom), Render(r.xlinkTo), Render(r.sourceFileId), Render(r.xlinkType), Render(r.xlinkArcrole)], r.id)
  }

  lemma LabelArcIdSpec(p: Primitives, r: LabelArc)
    ensures Truthy(r.xlinkFrom) && Truthy(r.xlinkTo) ==> (LabelArcId(p, r) ==
              Some(p.uuid5(Join([r.xlinkFrom.value, r.xlinkTo.value, Render(r.sourceFileId), Render(r.xlinkType), Render(r.xlinkArcrole)], '_'))))
    ensures !(Truthy(r.xlinkFrom) && Truthy(r.xlinkTo)) ==> LabelArcId(p, r) == r.id
  {
  }

  datatype LabelRoleRefs = LabelRoleRefs(
    id: Option<string>,
    roleUri: Option<string>,
    xlinkType: Option<string>,
    xlinkSchema: Option<string>,
    xlinkHref: Option<string>)

  function RoleRefsId(p: Primitives, r: LabelRoleRefs): Option<string>
  {
    DeriveKey(p, Truthy(r.roleUri) && Truthy(r.xlinkSchema),
              [Render(r.roleUri), Render(r.xlinkSchema), Render(r.xlinkType), Render(r.xlinkHref)], r.id)
  }

  lemma RoleRefsIdSpec(p: Primitives, r: LabelRoleRefs)
    ensures Truthy(r.roleUri) && Truthy(r.xlinkSchema) ==> (RoleRefsId(p, r) ==
              Some(p.uuid5(Join([r.roleUri.value, r.xlinkSchema.value, Render(r.xlinkType), Render(r.xlinkHref)], '_'))))
    ensures !(Truthy(r.roleUri) && Truthy(r.xlinkSchema)) ==> RoleRefsId(p, r) == r.id
  {
  }
}
