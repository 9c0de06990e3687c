/** app/ix_models/base_xbrl_model.py: opening an unpacked archive, deciding
    its report category from the file names, and the archive id. The
    unpacked directory is given as the list of paths a recursive walk of it
    yields, in the walk's order. */
module BaseXbrl {
  import opened Common
  import opened TagBase
  import opened ReportCategories

  /** The two exceptions of `app.exception` this class raises. */
  datatype ModelError = NotXbrlDirectory(message: string) | NotXbrlType(message: string)

  const NoIxbrlFile := "ixbrlファイルが存在しません。"
  const NoStatementFile := "財務諸表ファイルが存在しません。"
  const ManyRevisionFiles := "修正報告書ファイルが複数存在します。"
  const NoSummaryFile := "ixbrlファイルが存在するが短信サマリーが存在しません。"
  const KindDiffers := "XBRLファイルの種類が異なります。"
  const LayoutDiffers := "XBRLファイルの構成が異なります。"

  /** `Path(path).name`: what follows the last `/`. */
  function BaseName(path: string): (r: string)
    ensures '/' !in r
    ensures |r| <= |path|
  {
    if |path| == 0 || path[|path| - 1] == '/' then ""
    else BaseName(path[..|path| - 1]) + [path[|path| - 1]]
  }

  lemma {:induction false} BaseNameAfterSlash(dir: string, name: string)
    requires '/' !in name
    ensures BaseName(dir + "/" + name) == name
    decreases |name|
  {
    if |name| == 0 {
      assert dir + "/" + name == dir + "/";
    } else {
      var init := name[..|name| - 1];
      assert (dir + "/" + name)[..|dir + "/" + name| - 1] == dir + "/" + init;
      BaseNameAfterSlash(dir, init);
      assert init + [name[|name| - 1]] == name;
    }
  }

  /** `rglob("*ixbrl.htm")`: the entries whose name ends with `ixbrl.htm`, in
      walk order. */
  function IxbrlFiles(entries: seq<string>): (r: seq<string>)
    ensures |r| <= |entries|
    ensures forall f :: f in r <==> f in entries && EndsWith(BaseName(f), "ixbrl.htm")
  {
    if |entries| == 0 then []
    else
      var rest := IxbrlFiles(entries[1..]);
      assert forall f :: f in entries <==> f == entries[0] || f in entries[1..];
      if EndsWith(BaseName(entries[0]), "ixbrl.htm") then [entries[0]] + rest else rest
  }

  /** The position in `codes` of the first code that occurs in `path`, or
      `|codes|` when none does. */
  function FirstCodeIndex(codes: seq<string>, path: string): (r: nat)
    ensures r <= |codes|
    ensures forall j :: 0 <= j < r ==> !Contains(path, codes[j])
    ensures r < |codes| ==> Contains(path, codes[r])
  {
    if |codes| == 0 then 0
    else if Contains(path, codes[0]) then 0
    else 1 + FirstCodeIndex(codes[1..], path)
  }

  /** The decision `__xbrl_category` makes: `None` when no code occurs in the
      first file's path (the loop falls through). */
  function Category(entries: seq<string>): Result<Option<string>, ModelError>
  {
    var files := IxbrlFiles(entries);
    if |files| == 0 then Failure(NotXbrlDirectory(NoIxbrlFile))
    else
      var i := FirstCodeIndex(FieldValues(), files[0]);
      if i == |FieldValues()| then Success(None)
      else
        var c := FieldValues()[i];
        if c in FinancialReports() then
          (if |files| > 1 then Success(Some(c)) else Failure(NotXbrlDirectory(NoStatementFile)))
        else if c in RevisionReports() then
          (if |files| == 1 then Success(Some(c)) else Failure(NotXbrlDirectory(ManyRevisionFiles)))
        else Failure(NotXbrlDirectory(NoSummaryFile))
  }

  /** The loop of `__xbrl_category` over `field_values`, returning or raising
      at the first code found in the first file's path. */
  method ClassifyArchive(entries: seq<string>) returns (r: Result<Option<string>, ModelError>)
    ensures r == Category(entries)
  {
    var files := IxbrlFiles(entries);
    if |files| == 0 {
      return Failure(NotXbrlDirectory(NoIxbrlFile));
    }
    var first := files[0];
    var codes := FieldValues();
    var k := 0;
    while k < |codes|
      invariant 0 <= k <= FirstCodeIndex(codes, first)
    {
      var c := codes[k];
      if Contains(first, c) {
        if c in FinancialReports() {
          if |files| > 1 {
            return Success(Some(c));
          } else {
            return Failure(NotXbrlDirectory(NoStatementFile));
          }
        } else if c in RevisionReports() {
          if |files| == 1 {
            return Success(Some(c));
          } else {
            return Failure(NotXbrlDirectory(ManyRevisionFiles));
          }
        } else {
          return Failure(NotXbrlDirectory(NoSummaryFile));
        }
      }
      k := k + 1;
    }
    return Success(None);
  }

  /** No `ixbrl.htm` file at all is an error. */
  lemma CategoryOfEmpty(entries: seq<string>)
    ensures Category(entries) == Failure(NotXbrlDirectory(NoIxbrlFile)) <==>
            (forall f :: f in entries ==> !EndsWith(BaseName(f), "ixbrl.htm"))
  {
    var files := IxbrlFiles(entries);
    if |files| > 0 {
      assert files[0] in files;
    }
  }

  /** A category that is returned is the first code, in `field_values`
      order, that occurs in the first file's path. */
  lemma CategoryIsFirstMatch(entries: seq<string>, c: string)
    requires Category(entries) == Success(Some(c))
    ensures |IxbrlFiles(entries)| > 0
    ensures exists i :: 0 <= i < |FieldValues()| && FieldValues()[i] == c && Contains(IxbrlFiles(entries)[0], c) &&
              forall j :: 0 <= j < i ==> !Contains(IxbrlFiles(entries)[0], FieldValues()[j])
  {
    var files := IxbrlFiles(entries);
    var i := FirstCodeIndex(FieldValues(), files[0]);
    assert FieldValues()[i] == c;
  }

  /** A financial code is accepted exactly when there is more than one
      `ixbrl.htm` file; with only the summary it is an error. */
  lemma FinancialNeedsStatements(entries: seq<string>)
    requires |IxbrlFiles(entries)| > 0
    requires FirstCodeIndex(FieldValues(), IxbrlFiles(entries)[0]) < |FieldValues()|
    requires FieldValues()[FirstCodeIndex(FieldValues(), IxbrlFiles(entries)[0])] in FinancialReports()
    ensures |IxbrlFiles(entries)| > 1 ==>
              Category(entries) == Success(Some(FieldValues()[FirstCodeIndex(FieldValues(), IxbrlFiles(entries)[0])]))
    ensures |IxbrlFiles(entries)| == 1 ==> Category(entries) == Failure(NotXbrlDirectory(NoStatementFile))
  {
  }

  /** A revision code is accepted exactly when there is a single
      `ixbrl.htm` file; more than one is an error. */
  lemma RevisionIsSingleFile(entries: seq<string>)
    requires |IxbrlFiles(entries)| > 0
    requires FirstCodeIndex(FieldValues(), IxbrlFiles(entries)[0]) < |FieldValues()|
    requires FieldValues()[FirstCodeIndex(FieldValues(), IxbrlFiles(entries)[0])] in RevisionReports()
    ensures |IxbrlFiles(entries)| == 1 ==>
              Category(entries) == Success(Some(FieldValues()[FirstCodeIndex(FieldValues(), IxbrlFiles(entries)[0])]))
    ensures |IxbrlFiles(entries)| > 1 ==> Category(entries) == Failure(NotXbrlDirectory(ManyRevisionFiles))
  {
    ReportListsPartition();
  }

  /** When no code occurs in the first file's path, nothing is raised and no
      category is set. */
  lemma NoCodeGivesNone(entries: seq<string>)
    requires |IxbrlFiles(entries)| > 0
    requires forall c :: c in FieldValues() ==> !Contains(IxbrlFiles(entries)[0], c)
    ensures Category(entries) == Success(None)
  {
    var files := IxbrlFiles(entries);
    assert forall j :: 0 <= j < |FieldValues()| ==> !Contains(files[0], FieldValues()[j]);
  }

  /** The “summary present but no statement” error is never raised, because
      every code is financial or revision. */
  lemma NoSummaryUnreachable(entries: seq<string>)
    ensures Category(entries) != Failure(NotXbrlDirectory(NoSummaryFile))
  {
    ReportListsPartition();
    var files := IxbrlFiles(entries);
    if |files| > 0 {
      var i := FirstCodeIndex(FieldValues(), files[0]);
      if i < |FieldValues()| {
        assert FieldValues()[i] in FieldValues();
      }
    }
  }

  /** Every keyword is matched by the name of some entry (`*keyword*`). */
  predicate AllKeywordsPresent(entries: seq<string>, keywords: seq<string>)
  {
    forall k :: k in keywords ==> exists f :: f in entries && Contains(BaseName(f), k)
  }

  /** `__check_xbrl_files_in_dir`, on the directory `entries` stands for. */
  method CheckFilesInDir(entries: seq<string>, keywords: seq<string>) returns (r: bool)
    ensures r <==> AllKeywordsPresent(entries, keywords)
    ensures |keywords| == 0 ==> r
  {
    var i := 0;
    while i < |keywords|
      invariant 0 <= i <= |keywords|
      invariant forall j :: 0 <= j < i ==> exists f :: f in entries && Contains(BaseName(f), keywords[j])
    {
      var found := false;
      var n := 0;
      while n < |entries|
        invariant 0 <= n <= |entries|
        invariant found <==> exists m :: 0 <= m < n && Contains(BaseName(entries[m]), keywords[i])
      {
        if Contains(BaseName(entries[n]), keywords[i]) {
          found := true;
        }
        n := n + 1;
      }
      if !found {
        assert !exists f :: f in entries && Contains(BaseName(f), keywords[i]);
        assert keywords[i] in keywords;
        return false;
      }
      i := i + 1;
    }
    return true;
  }

  /** The archive id: `string_to_uuid` of the zip file's base name. */
  function XbrlIdOf(p: Primitives, zipPath: string): string
  {
    p.stringToUuid(BaseName(zipPath))
  }

  /** Only the file name enters the id: the same archive name in two
      directories gets the same id. */
  lemma XbrlIdIgnoresDirectory(p: Primitives, dir1: string, dir2: string, name: string)
    requires '/' !in name
    ensures XbrlIdOf(p, dir1 + "/" + name) == XbrlIdOf(p, dir2 + "/" + name)
    ensures XbrlIdOf(p, dir1 + "/" + name) == p.stringToUuid(name)
  {
    BaseNameAfterSlash(dir1, name);
    BaseNameAfterSlash(dir2, name);
  }

  /** `BaseXbrlModel`: an opened archive. */
  class BaseXbrlModel {
    var zipPath: string
    var entries: seq<string>
    var category: Option<string>
    var xbrlId: string

    constructor (zipPath: string, entries: seq<string>, category: Option<string>, xbrlId: string)
      ensures this.zipPath == zipPath && this.entries == entries
      ensures this.category == category && this.xbrlId == xbrlId
    {
      this.zipPath := zipPath;
      this.entries := entries;
      this.category := category;
      this.xbrlId := xbrlId;
    }

    /** `__init__` on an archive already unpacked into `entries`: classify it
        (raising what classification raises) and derive its id. */
    static method Open(p: Primitives, zipPath: string, entries: seq<string>) returns (r: Result<BaseXbrlModel, ModelError>)
      ensures r.Success? <==> Category(entries).Success?
      ensures r.Failure? ==> r.error == Category(entries).error
      ensures r.Success? ==> fresh(r.value) && r.value.zipPath == zipPath && r.value.entries == entries &&
                             r.value.category == Category(entries).value && r.value.xbrlId == XbrlIdOf(p, zipPath)
    {
      var c := ClassifyArchive(entries);
      if c.Failure? {
        return Failure(c.error);
      }
      var m := new BaseXbrlModel(zipPath, entries, c.value, XbrlIdOf(p, zipPath));
      return Success(m);
    }

    /** `set_xbrl_id`: replaces the id and nothing else. */
    method SetXbrlId(id: string)
      modifies this
      ensures xbrlId == id
      ensures zipPath == old(zipPath) && entries == old(entries) && category == old(category)
    {
      xbrlId := id;
    }

    /** `_xbrl_category_check`: raises when the category is not the expected
        one, and otherwise when every keyword file is present. */
    method CategoryCheck(expected: Option<string>, keywords: seq<string>) returns (r: Option<ModelError>)
      ensures category != expected ==> r == Some(NotXbrlType(KindDiffers))
      ensures category == expected ==>
                (r == (if AllKeywordsPresent(entries, keywords) then Some(NotXbrlType(LayoutDiffers)) else None))
    {
      if category != expected {
        return Some(NotXbrlType(KindDiffers));
      }
      var present := CheckFilesInDir(entries, keywords);
      if present {
        return Some(NotXbrlType(LayoutDiffers));
      }
      return None;
    }
  }
}
