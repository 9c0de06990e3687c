/** app/ix_tag/qualitative.py: a narrative block of a document with its
    position in the block tree. */
module QualitativeTag {
  import opened Common
  import opened TagBase

  /** `current_id` is a fresh uuid4 by default in the source; the model takes
      it as an input, so the key is a function of the fields it is given. */
  datatype QualitativeDocument = QualitativeDocument(
    currentId: string,
    parentId: Option<string>,
    blockType: Option<string>,
    order: Option<int>,
    headItemKey: Option<string>,
    sourceFileId: Option<string>,
    content: Option<string>,
    photoUrl: Option<string>)

  predicate AtMost36(v: Option<string>)
  {
    v.None? || |v.value| <= 36
  }

  /** Construction with pydantic's field bounds: `currentId`, `parentId`,
      `head_item_key` and `source_file_id` are at most 36 characters. */
  function NewQualitative(r: QualitativeDocument): (res: Result<QualitativeDocument, ValidationError>)
    ensures res.Success? <==>
              |r.currentId| <= 36 && AtMost36(r.parentId) && AtMost36(r.headItemKey) && AtMost36(r.sourceFileId)
    ensures res.Success? ==> res.value == r
    ensures res.Failure? ==> res.error.field in {"currentId", "parentId", "head_item_key", "source_file_id"}
  {
    if |r.currentId| > 36 then Failure(ValidationError("currentId"))
    else if !AtMost36(r.parentId) then Failure(ValidationError("parentId"))
    else if !AtMost36(r.headItemKey) then Failure(ValidationError("head_item_key"))
    else if !AtMost36(r.sourceFileId) then Failure(ValidationError("source_file_id"))
    else Success(r)
  }

  function QualitativeHashInput(r: QualitativeDocument): seq<string>
  {
    [Render(r.content), Render(r.headItemKey), Render(r.sourceFileId), r.currentId]
  }

  function QualitativeKey(p: Primitives, r: QualitativeDocument): Option<string>
  {
    DeriveKey(p, Truthy(r.content), QualitativeHashInput(r), None)
  }

  /** Set exactly when the content is non-empty; hashes content, head key,
      source file id and current id in that order; parent, type, order and
      photo URL never change it. */
  lemma QualitativeKeySpec(p: Primitives, r: QualitativeDocument, s: QualitativeDocument)
    ensures QualitativeKey(p, r).Some? <==> Truthy(r.content)
    ensures QualitativeKey(p, r).Some? ==> (QualitativeKey(p, r).value ==
              p.uuid5(Join([r.content.value, Render(r.headItemKey), Render(r.sourceFileId), r.currentId], '_')))
    ensures (r.content == s.content && r.headItemKey == s.headItemKey && r.sourceFileId == s.sourceFileId &&
            r.currentId == s.currentId) ==> QualitativeKey(p, r) == QualitativeKey(p, s)
  {
  }

  /** With the random default, two otherwise identical blocks that draw
      different current ids feed different text to uuid5: the key only
      deduplicates when the current id is supplied. */
  lemma CurrentIdIsHashed(r: QualitativeDocument, other: string)
    requires other != r.currentId
    ensures Join(QualitativeHashInput(r.(currentId := other)), '_') != Join(QualitativeHashInput(r), '_')
  {
    var pre := [Render(r.content), Render(r.headItemKey), Render(r.sourceFileId)];
    assert QualitativeHashInput(r.(currentId := other)) == pre + [other] + [];
    assert QualitativeHashInput(r) == pre + [r.currentId] + [];
    JoinDiffersAt(pre, other, r.currentId, [], '_');
  }
}
