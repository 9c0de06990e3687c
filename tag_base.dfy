/** app/ix_tag/base.py: the base record shape, `SourceFile`, `FilePath`, and
    the vocabulary every record's key derivation is written in. */
module TagBase {
  import opened Common

  /** The primitives the key derivations call but whose internals are outside
      the model: `str(uuid.uuid5(uuid.NAMESPACE_DNS, name))`,
      `str(Utils.string_to_uuid(text))` and Python's `str()` of a list of
      strings. Every lemma in the model holds for every choice of them; none
      of them is assumed injective. */
  datatype Primitives = Primitives(
    uuid5: string -> string,
    stringToUuid: string -> string,
    listText: seq<string> -> string)

  /** What an f-string prints for an `Optional[str]` field. */
  function Render(v: Option<string>): string
  {
    match v
    case None => "None"
    case Some(s) => s
  }

  /** Python truthiness of an `Optional[str]` field. */
  predicate Truthy(v: Option<string>)
  {
    v.Some? && |v.value| > 0
  }

  /** The guarded key expression every record constructor uses:
      `if guard: key = str(uuid5(NAMESPACE_DNS, "_".join(parts)))`. A record
      whose guard fails keeps `fallback` (the field's previous value). */
  function DeriveKey(p: Primitives, guard: bool, parts: seq<string>, fallback: Option<string>): Option<string>
  {
    if guard then Some(p.uuid5(Join(parts, '_'))) else fallback
  }

  /** Pydantic rejects a construction whose arguments break a field bound. */
  datatype ValidationError = ValidationError(field: string)

  /** `BaseTag.id`: optional; a value that is supplied must be exactly 36
      characters long (the length of a rendered uuid). */
  predicate ValidTagId(id: Option<string>)
  {
    id.None? || |id.value| == 36
  }

  /** `SourceFile`: a file of the archive, attributed to a linkbase class. It
      derives no id of its own. */
  datatype SourceFile = SourceFile(
    id: Option<string>,
    name: Option<string>,
    fileType: Option<string>,
    xbrlId: Option<string>,
    url: Option<string>)

  /** `SourceFile.__str__`: `name,type,xbrl_id,url`. */
  function SourceFileText(f: SourceFile): string
  {
    Join([Render(f.name), Render(f.fileType), Render(f.xbrlId), Render(f.url)], ',')
  }

  /** The text form lists the four fields in that order: splitting it at the
      commas gives them back whenever none of them holds a comma. */
  lemma SourceFileTextFields(f: SourceFile)
    requires ',' !in Render(f.name) && ',' !in Render(f.fileType)
    requires ',' !in Render(f.xbrlId) && ',' !in Render(f.url)
    ensures Split(SourceFileText(f), ',') ==
      [Render(f.name), Render(f.fileType), Render(f.xbrlId), Render(f.url)]
  {
    SplitJoin([Render(f.name), Render(f.fileType), Render(f.xbrlId), Render(f.url)], ',');
  }

  /** `FilePath`: the archive's path, one per document. */
  datatype FilePath = FilePath(id: Option<string>, xbrlId: Option<string>, path: Option<string>)

  /** `FilePath(id=…, xbrl_id=…, path=…)`: validates the supplied `id` and
      `xbrl_id` (both exactly 36 characters when given) and then, when both
      `xbrl_id` and `path` are non-empty, sets `id` from them. */
  function NewFilePath(p: Primitives, id: Option<string>, xbrlId: Option<string>, path: Option<string>): (r: Result<FilePath, ValidationError>)
    ensures r.Success? <==> ValidTagId(id) && ValidTagId(xbrlId)
    ensures r.Success? ==> r.value.xbrlId == xbrlId && r.value.path == path
    ensures r.Success? ==>
              r.value.id == (if Truthy(xbrlId) && Truthy(path) then Some(p.uuid5(xbrlId.value + "_" + path.value)) else id)
  {
    if !ValidTagId(id) then Failure(ValidationError("id"))
    else if !ValidTagId(xbrlId) then Failure(ValidationError("xbrl_id"))
    else
      JoinTwo(Render(xbrlId), Render(path), '_');
      var derived := DeriveKey(p, Truthy(xbrlId) && Truthy(path), [Render(xbrlId), Render(path)], id);
      Success(FilePath(derived, xbrlId, path))
  }

  /** The derived id depends on `xbrl_id` and `path` only: a caller-supplied
      id is overwritten, and two paths with the same two fields get the same id. */
  lemma FilePathIdDeterminedBy(p: Primitives, id1: Option<string>, id2: Option<string>, xbrlId: Option<string>, path: Option<string>)
    requires ValidTagId(id1) && ValidTagId(id2) && ValidTagId(xbrlId)
    requires Truthy(xbrlId) && Truthy(path)
    ensures NewFilePath(p, id1, xbrlId, path).value.id == NewFilePath(p, id2, xbrlId, path).value.id
  {
  }

  /** Because `xbrl_id` is exactly 36 characters, the uuid5 input of a file
      path determines both fields: two different (xbrl_id, path) pairs never
      feed the same text to uuid5. */
  lemma FilePathInputUnambiguous(x1: string, p1: string, x2: string, p2: string)
    requires |x1| == 36 && |x2| == 36
    requires x1 + "_" + p1 == x2 + "_" + p2
    ensures x1 == x2 && p1 == p2
  {
    assert x1 == (x1 + "_" + p1)[..36];
    assert x2 == (x2 + "_" + p2)[..36];
    assert p1 == (x1 + "_" + p1)[37..];
    assert p2 == (x2 + "_" + p2)[37..];
  }

  /** The records of this module as `BaseTag.__eq__` sees them. */
  datatype Tag = SourceFileTag(sourceFile: SourceFile) | FilePathTag(filePath: FilePath)

  /** `self.__dict__`: each declared field under its attribute name. */
  function Attributes(t: Tag): map<string, Option<string>>
  {
    match t
    case SourceFileTag(f) =>
      map["id" := f.id, "name" := f.name, "type" := f.fileType, "xbrl_id" := f.xbrlId, "url" := f.url]
    case FilePathTag(f) => map["id" := f.id, "xbrl_id" := f.xbrlId, "path" := f.path]
  }

  /** `BaseTag.__eq__`: `self.__dict__ == value.__dict__`. */
  predicate TagEq(a: Tag, b: Tag)
  {
    Attributes(a) == Attributes(b)
  }

  /** Records of different classes are never equal, since their attribute
      names differ; records of one class are equal exactly when every field
      is. */
  lemma TagEqIsFieldEquality(a: Tag, b: Tag)
    ensures a.SourceFileTag? != b.SourceFileTag? ==> !TagEq(a, b)
    ensures TagEq(a, b) <==> a == b
  {
    if a.SourceFileTag? != b.SourceFileTag? {
      assert ("name" in Attributes(a)) != ("name" in Attributes(b));
    } else if TagEq(a, b) {
      var ma, mb := Attributes(a), Attributes(b);
      assert ma["id"] == mb["id"] && ma["xbrl_id"] == mb["xbrl_id"];
      if a.SourceFileTag? {
        assert ma["name"] == mb["name"] && ma["type"] == mb["type"] && ma["url"] == mb["url"];
      } else {
        assert ma["path"] == mb["path"];
      }
    }
  }

  /** Two file paths built from the same non-empty `xbrl_id` and `path` are
      equal, whatever ids the callers supplied. */
  lemma FilePathsWithSameSourceEqual(p: Primitives, id1: Option<string>, id2: Option<string>,
                                     xbrlId: Option<string>, path: Option<string>)
    requires NewFilePath(p, id1, xbrlId, path).Success? && NewFilePath(p, id2, xbrlId, path).Success?
    requires Truthy(xbrlId) && Truthy(path)
    ensures TagEq(FilePathTag(NewFilePath(p, id1, xbrlId, path).value), FilePathTag(NewFilePath(p, id2, xbrlId, path).value))
  {
    FilePathIdDeterminedBy(p, id1, id2, xbrlId, path);
  }
}
