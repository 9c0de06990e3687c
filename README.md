# stock-link-parser: the XBRL ingestion core, modelled in Dafny

stock-link-parser reads the zipped XBRL packages of Japanese earnings
releases (決算短信) and forecast revisions. From the inline-XBRL documents,
linkbases, taxonomy schemas and narrative blocks it builds flat records, and it
pushes those records as keyed items to a REST API. This project models the
part that makes those decisions:

- **Record keys** (`app/ix_tag/*.py`). Every record constructor derives its
  key as a uuid5 of an `_`-joined tuple of fields, gated on some fields being
  non-empty. This is modelled in modules `TagBase`, `IxTag`, `LinkTag`,
  `LabelTag`, `SchemaTag` and `QualitativeTag`.
- **Report categories** (`app/constants/report_categories.py`). The ten
  report-detail codes and the financial and revision groups, modelled in
  `ReportCategories`.
- **Opening an archive** (`app/ix_models/base_xbrl_model.py`). The category
  decision, the keyword check and the archive id, modelled in `BaseXbrl`.
- **The inline-XBRL manager** (`app/ix_manager/ixbrl_manager.py`). The
  parser skip rule, the per-kind item lists, the cached non-numeric
  extraction, the header fold over all non-numeric facts (first-match pattern
  chain per fact, last fact wins across facts), and the stable sort by
  `sort_position`. These are modelled in `HeaderFold`, `ItemSort` and
  `IxManager`, with the items in `Items`.
- **The document model** (`app/ix_models/xbrl_model.py`). Manager order,
  the item list with the file-path item first, the item cache and the
  distinct keys, modelled in `XbrlModel`.
- **The ingestion pipeline** (`app/api/ix/insert.py`,
  `app/api/ix/exceptions.py`). The per-archive skip rule, the sequential
  pre-phase, routing of item keys to endpoints, fail-fast over the thread
  pool, activation, and the final escalation. Modelled in `IxInsert` and
  `ApiExceptions`.
- **The older pipeline** (`app/api/insert.py`). Error-list accumulation
  with the file-path break rule, and success counting, modelled in
  `LegacyInsert`.

Some code works by changing objects in place: `IXBRLManager`,
`XBRLModel`, `BaseXbrlModel`, and the loops of the pipelines. That code is
modelled as classes and methods with loops. Each method is proved against a
function that specifies it, and the properties are proved as lemmas about
those functions. The key derivations and the constants are modelled as
functions.

uuid5, `Utils.string_to_uuid` and Python's `str()` of a list are parameters:
the fields of `TagBase.Primitives`. Every lemma holds for every choice of
them. No lemma relies on a hash being injective. Where a property says that
a field is hashed, it is stated about the text fed to the hash.

## Model

| member | source | states |
|---|---|---|
| TagBase.NewFilePath | app/ix_tag/base.py:45-61 | construction succeeds exactly when `id` and `xbrl_id` are absent or 36 characters long; the fields are stored; the id is uuid5 of `xbrl_id + "_" + path` when both are non-empty, and otherwise the supplied id |
| TagBase.FilePathIdDeterminedBy | app/ix_tag/base.py:55-61 | when both fields are non-empty, the derived id does not depend on the id the caller supplied |
| TagBase.FilePathInputUnambiguous | app/ix_tag/base.py:48-50 | with a 36-character `xbrl_id`, the uuid5 input text determines both `xbrl_id` and `path` |
| TagBase.SourceFileTextFields | app/ix_tag/base.py:41-42 | splitting `str(SourceFile)` at commas yields name, type, xbrl_id and url in that order, when none of them holds a comma |
| TagBase.TagEqIsFieldEquality | app/ix_tag/base.py:27-28 | comparing the attribute dictionaries of a `SourceFile` and a `FilePath` always gives false; two records of one class are equal exactly when every field is |
| TagBase.FilePathsWithSameSourceEqual | app/ix_tag/base.py:27-28 | two file paths built from the same non-empty `xbrl_id` and `path` are equal under `__eq__`, whatever ids were supplied |
| IxTag.NonNumericKeySpec | app/ix_tag/ixbrl.py:24-33 | the key exists iff name, context and head key are non-empty; it is uuid5 of the seven hashed fields; facts agreeing on those fields get the same key, whatever their format, escape, nil flag or report type |
| IxTag.NonNumericValueIsHashed | app/ix_tag/ixbrl.py:27-31 | changing the rendered value changes the hashed text |
| IxTag.NonFractionKeySpec | app/ix_tag/ixbrl.py:55-64 | same gate as the non-numeric fact and the same tuple with `numeric`; unit, decimals, scale, sign and display fields do not affect the key |
| IxTag.FactKindsShareTuple | app/ix_tag/ixbrl.py:57-62 | a numeric and a non-numeric fact that agree on the shared hashed fields get the same key |
| IxTag.ContextKeySpec | app/ix_tag/ixbrl.py:99-107 | the key exists iff context id and head key are non-empty, and depends on those two fields only |
| LinkTag.SchemaImportKeySpec | app/ix_tag/link.py:19-27 | the key exists iff location and namespace are non-empty, and hashes location, namespace, document type and head key |
| LinkTag.BaseRefKeySpec | app/ix_tag/link.py:42-50 | the key exists iff href and role are non-empty; `xlink_type` and `xlink_arcrole` do not affect it |
| LinkTag.ElementKeySpec | app/ix_tag/link.py:69-77 | the key exists iff name and type are non-empty; balance, period type, substitution group and abstract flag do not affect it |
| LinkTag.RoleKeySpec | app/ix_tag/link.py:91-99 | the key exists iff role URI and schema are non-empty, and hashes its fields in order |
| LinkTag.LocKeySpec | app/ix_tag/link.py:115-123 | the key exists iff label and schema are non-empty, and hashes all seven fields in a fixed order |
| LinkTag.ArcKeySpec | app/ix_tag/link.py:141-149 | the key exists iff from and to are non-empty, and is uuid5 of the arc's hashed fields |
| LinkTag.ArcOrderIsHashed | app/ix_tag/link.py:143-149 | the same edge with a different order gives a different hashed text |
| LinkTag.ArcWeightIsHashed | app/ix_tag/link.py:143-149 | the same edge with a different weight gives a different hashed text |
| LinkTag.LinkBaseKeySpec | app/ix_tag/link.py:162-170 | the key exists iff `xmlns_xlink` and `xmlns_xsi` are non-empty |
| LinkTag.LinkTagKeySpec | app/ix_tag/link.py:182-190 | the key exists iff type and role are non-empty |
| LinkTag.LinkTagKeysCollide | app/ix_tag/link.py:184-190 | two different link tags whose fields hold `_` feed the same text to uuid5 |
| LabelTag.LabelValueIdSpec | app/ix_tag/label.py:19-27 | the id is derived iff label and role are non-empty, and otherwise stays as supplied; the label text never affects it |
| LabelTag.LabelLocIdSpec | app/ix_tag/label.py:39-47 | the id is derived iff label and schema are non-empty, hashing label, schema, source file, type and href |
| LabelTag.LabelArcIdSpec | app/ix_tag/label.py:59-67 | the id is derived iff from and to are non-empty, and includes source file and arc role |
| LabelTag.RoleRefsIdSpec | app/ix_tag/label.py:78-86 | the id is derived iff role URI and schema are non-empty |
| SchemaTag.SchemaImportKeySpec | app/ix_tag/schema.py:18-26 | the key exists iff location and namespace are non-empty; the source file id does not affect it |
| SchemaTag.LinkBaseRefKeySpec | app/ix_tag/schema.py:41-49 | the key exists iff href and role are non-empty; type, arc role and both source file ids do not affect it |
| SchemaTag.ElementKeySpec | app/ix_tag/schema.py:67-75 | the key exists iff name and head key are non-empty, and is uuid5 of those two only |
| QualitativeTag.NewQualitative | app/ix_tag/qualitative.py:12-27 | construction succeeds iff `currentId`, `parentId`, head key and source file id are each at most 36 characters; on failure it names the offending field |
| QualitativeTag.QualitativeKeySpec | app/ix_tag/qualitative.py:33-40 | the key exists iff content is non-empty, and hashes content, head key, source file id and `currentId` in that order |
| QualitativeTag.CurrentIdIsHashed | app/ix_tag/qualitative.py:12-16 | two blocks that differ only in `currentId` feed different texts to uuid5 |
| ReportCategories.ReportListsPartition | app/constants/report_categories.py:26-61 | ten codes; the six financial and four revision codes are disjoint and together make up all ten |
| ReportCategories.CodesDistinct | app/constants/report_categories.py:4-23 | every code has four letters and the codes are pairwise distinct |
| ReportCategories.CodesNotSubstrings | app/constants/report_categories.py:4-23 | no code occurs inside another |
| BaseXbrl.BaseName | app/ix_models/base_xbrl_model.py:23-25 | the base name holds no `/` and is no longer than the path |
| BaseXbrl.BaseNameAfterSlash | app/ix_models/base_xbrl_model.py:23-25 | the base name of `dir/name` is `name` |
| BaseXbrl.IxbrlFiles | app/ix_models/base_xbrl_model.py:117 | exactly the entries whose name ends in `ixbrl.htm` |
| BaseXbrl.FirstCodeIndex | app/ix_models/base_xbrl_model.py:124-125 | no code before the index occurs in the path, and the code at the index does |
| BaseXbrl.ClassifyArchive | app/ix_models/base_xbrl_model.py:95-143 | the loop returns or raises exactly what the category decision does |
| BaseXbrl.CategoryOfEmpty | app/ix_models/base_xbrl_model.py:117-121 | "no ixbrl file" is raised exactly when there is no `ixbrl.htm` file |
| BaseXbrl.CategoryIsFirstMatch | app/ix_models/base_xbrl_model.py:123-125 | a returned category is the first code in order that occurs in the first file's path |
| BaseXbrl.FinancialNeedsStatements | app/ix_models/base_xbrl_model.py:126-132 | a financial code is returned with more than one file and raises "missing statements" with exactly one |
| BaseXbrl.RevisionIsSingleFile | app/ix_models/base_xbrl_model.py:133-139 | a revision code is returned with exactly one file and raises "multiple revision files" with more |
| BaseXbrl.NoCodeGivesNone | app/ix_models/base_xbrl_model.py:124-143 | when no code occurs in the first path the result is None, with nothing raised |
| BaseXbrl.NoSummaryUnreachable | app/ix_models/base_xbrl_model.py:140-143 | the "summary without statements" error is never raised |
| BaseXbrl.CheckFilesInDir | app/ix_models/base_xbrl_model.py:146-153 | true iff every keyword matches some entry name; true with no keywords |
| BaseXbrl.XbrlIdIgnoresDirectory | app/ix_models/base_xbrl_model.py:23-25 | the archive id depends on the zip file's name only |
| BaseXbrl.BaseXbrlModel.constructor | app/ix_models/base_xbrl_model.py:16-25 | stores path, entries, category and id |
| BaseXbrl.BaseXbrlModel.Open | app/ix_models/base_xbrl_model.py:16-25 | opening fails exactly when the category decision raises, with that error; otherwise the category and the id of the base name are stored |
| BaseXbrl.BaseXbrlModel.SetXbrlId | app/ix_models/base_xbrl_model.py:48-50 | replaces the id and nothing else |
| BaseXbrl.BaseXbrlModel.CategoryCheck | app/ix_models/base_xbrl_model.py:155-159 | raises "kind differs" when the category differs; otherwise raises "layout differs" exactly when all keyword files are present |
| HeaderFold.ClassifyIsFirstMatch | app/ix_manager/ixbrl_manager.py:222-287 | the rule a fact name selects matches it and no earlier rule does; no rule is selected iff none matches |
| HeaderFold.HeaderOf | app/ix_manager/ixbrl_manager.py:290-311 | the header's `item_key` is the manager's head key |
| HeaderFold.LastMatchWins | app/ix_manager/ixbrl_manager.py:214-244 | each of the eight fields that copy a fact's value (company name, securities code, document name, reporting date, current period, URL, fiscal year end, telephone) ends as the value of the last fact that selected its rule, or None |
| HeaderFold.MarketSectionIsLast | app/ix_manager/ixbrl_manager.py:253-257 | `market_section` ends as the name of the last affirmed `TokyoStockExchange(?!$)` fact, or None; unaffirmed facts leave it alone |
| HeaderFold.SpecificBusinessIsLast | app/ix_manager/ixbrl_manager.py:245-246 | `specific_business` ends as whether the last `SpecificBusiness` fact has value `"true"`, or None when there is no such fact |
| HeaderFold.ReportTypeIsLast | app/ix_manager/ixbrl_manager.py:218 | `report_type` ends as the last fact's, or None with no facts |
| HeaderFold.FlagIffSomeFact | app/ix_manager/ixbrl_manager.py:261-287 | a statement flag ends true iff some fact selected its rule |
| HeaderFold.FlagNeverResets | app/ix_manager/ixbrl_manager.py:191-196 | a flag that is true stays true after any further fact |
| HeaderFold.UnaffirmedExchangeIsNoOp | app/ix_manager/ixbrl_manager.py:250-257 | a Tokyo Stock Exchange fact that is not affirmed changes nothing but `report_type`, and no later pattern is tried |
| HeaderFold.CompanyNameShadowsUrl | app/ix_manager/ixbrl_manager.py:222-235 | a name matching both `CompanyName` and `URL` sets the company name and leaves the URL as it was |
| HeaderFold.ListedMarketIffAffirmed | app/ix_manager/ixbrl_manager.py:250-253 | the listed market is the exchange's name iff some listed-market fact was affirmed, and None otherwise |
| ItemSort.SortIsSortedPermutation | app/ix_manager/ixbrl_manager.py:89 | the sorted items are ordered by position and are a permutation of the input |
| ItemSort.SortIsStable | app/ix_manager/ixbrl_manager.py:89 | items with equal positions keep their relative order |
| ItemSort.SortKeepsEqualPositions | app/ix_manager/ixbrl_manager.py:89 | when all items share one position, the sort is the identity |
| ItemSort.UniqueMinimumFirst | app/ix_manager/ixbrl_manager.py:89 | an item positioned strictly before all others comes first |
| ItemSort.SortKeepsKeyCounts | app/ix_manager/ixbrl_manager.py:89 | the sort keeps the number of items under each key |
| IxManager.KeptParsers | app/ix_manager/ixbrl_manager.py:65-79 | no more parsers than files |
| IxManager.KeptParsersMembers | app/ix_manager/ixbrl_manager.py:67-79 | a parser is kept iff its file was parsed; files whose document name tag is missing are dropped |
| IxManager.ItemsPerKey | app/ix_manager/ixbrl_manager.py:81-89 | one non-numeric, one non-fraction and one context item per kept file, and exactly one header item |
| IxManager.ManagerItemsSorted | app/ix_manager/ixbrl_manager.py:89 | the manager's items are sorted by position and are a permutation of what was added |
| IxManager.HeaderFirst | app/ix_manager/ixbrl_manager.py:317-322 | with a positive default position, the header item (position 0) is first |
| IxManager.DefaultZeroKeepsOrder | app/ix_manager/ixbrl_manager.py:81-89 | with default position 0, the items keep the order they were added in: non-numeric, header, non-fraction, context |
| IxManager.IxbrlManager.constructor | app/ix_manager/ixbrl_manager.py:20-47 | an empty manager with the head key and default position |
| IxManager.IxbrlManager.InitParser | app/ix_manager/ixbrl_manager.py:65-79 | the parsers are those of the files that parsed, in file order; nothing else changes |
| IxManager.IxbrlManager.SetIxNonFraction | app/ix_manager/ixbrl_manager.py:91-114 | stores each parser's numeric facts and appends one `ix_non_fraction` item per parser |
| IxManager.IxbrlManager.SetIxNonNumeric | app/ix_manager/ixbrl_manager.py:116-143 | a no-op when non-empty rows are cached; otherwise stores the rows and appends one `ix_non_numeric` item per parser |
| IxManager.IxbrlManager.SetIxContext | app/ix_manager/ixbrl_manager.py:145-168 | stores each parser's contexts and appends one `ix_context` item per parser |
| IxManager.IxbrlManager.SetIxHeader | app/ix_manager/ixbrl_manager.py:170-322 | extracts non-numeric facts first if they are missing, folds all facts into the header, and appends the header item |
| IxManager.IxbrlManager.InitManager | app/ix_manager/ixbrl_manager.py:81-89 | fills all four lists and the header, then sorts the items stably by position |
| IxManager.IxbrlManager.New | app/ix_manager/ixbrl_manager.py:20-47 | raises `XbrlListEmptyError` iff there are no files, and otherwise yields the fully initialised manager |
| XbrlModel.InitManagerOutcome | app/ix_models/xbrl_model.py:43-50 | an empty-file-list error becomes None; it is never propagated |
| XbrlModel.AllManagersEnds | app/ix_models/xbrl_model.py:117-133 | three to seven managers; ix is first, and qualitative then schema are last, whichever link managers are missing |
| XbrlModel.AllManagersInOrder | app/ix_models/xbrl_model.py:117-133 | the managers are ix, then each present one of lab, cal, def and pre in that order, then qualitative and schema, each with its own items |
| XbrlModel.AllManagersNames | app/ix_models/xbrl_model.py:119-131 | the dictionary keys are `ix`, the keys of the present link managers in declared order, then `qualitative` and `schema` |
| XbrlModel.AllManagersFull | app/ix_models/xbrl_model.py:117-133 | with every manager present, all seven names in order |
| XbrlModel.AllManagersMembers | app/ix_models/xbrl_model.py:131 | a manager is listed iff its slot holds a manager |
| XbrlModel.XbrlModel.constructor | app/ix_models/xbrl_model.py:26-41 | optional managers that raise `XbrlListEmptyError` are absent; the item cache is empty |
| XbrlModel.XbrlModel.GetFilePath | app/ix_models/xbrl_model.py:175-176 | a `FilePath` of the archive's id and zip path, with its id derived from the two |
| XbrlModel.XbrlModel.GetAllItems | app/ix_models/xbrl_model.py:139-159 | the file-path item comes first, followed by every manager's items in manager order; the length is 1 plus their total; the cache is refreshed |
| XbrlModel.XbrlModel.AllItems | app/ix_models/xbrl_model.py:80-84 | returns the cache when filled; otherwise computes and caches the items |
| XbrlModel.XbrlModel.GetAllItemsKeys | app/ix_models/xbrl_model.py:161-170 | each key of the cached items exactly once |
| ApiExceptions.NewNotXbrlDirectory | app/api/ix/exceptions.py:1-8 | the given message, or the default one |
| ApiExceptions.NewApiInsertion | app/api/ix/exceptions.py:11-23 | constructing succeeds iff two or three arguments are given; fewer raise `TypeError` naming the unbound parameters |
| ApiExceptions.ApiInsertionMessage | app/api/ix/exceptions.py:22 | the message is exactly the given message (or the default), ` エンドポイント: `, the endpoint, `, ステータスコード: ` and the status code; so it starts with the message and endpoint and ends with the status code |
| ApiExceptions.MessageOnlyCallRaisesTypeError | app/api/ix/exceptions.py:14-19 | a call with only a message raises `TypeError` for the missing `status_code` |
| IxInsert.RouteInverse | app/api/ix/insert.py:216-244 | every routed key reaches its own endpoint; pre-phase and head endpoints are never routed to |
| IxInsert.RouteInjective | app/api/ix/insert.py:216-244 | two keys routed to the same endpoint are equal |
| IxInsert.RoutedExactly | app/api/ix/insert.py:216-244 | exactly the thirteen keys are routed |
| IxInsert.UnroutedKeys | app/api/ix/insert.py:216-244 | `ix_context`, `ix_file_path`, `ix_head_title` and every `*source_file` key send nothing from the pool |
| IxInsert.PhasesDisjoint | app/api/ix/insert.py:205-244 | no item is sent both in the pre-phase and from the pool |
| IxInsert.AsWrittenMissesErrorStatuses | app/api/ix/insert.py:255 | the failure test as written and the corrected one differ exactly on 4xx and 5xx replies |
| IxInsert.ServerErrorPassesAsWritten | app/api/ix/insert.py:255 | a 500 reply passes the test as written and fails the corrected one |
| IxInsert.UnroutedNeverFails | app/api/ix/insert.py:244 | an item that sends nothing never fails the push |
| IxInsert.InsertApiPush | app/api/ix/insert.py:202-278 | true iff no routed reply fails; sends the pre-phase requests, then every routed request, then the three head requests only on success |
| IxInsert.Send | app/api/ix/insert.py:205-250 | sends one request per routed item, in item order |
| IxInsert.AwaitAll | app/api/ix/insert.py:251-262 | false at the first failing future; true iff none fails |
| IxInsert.VerdictIgnoresOrder | app/api/ix/insert.py:251 | the verdict does not depend on the completion order |
| IxInsert.HeadKeyIsXbrlId | app/api/ix/insert.py:170 | the head key equals the archive's `xbrl_id` |
| IxInsert.Results | app/api/ix/insert.py:168-196 | at most one result per archive |
| IxInsert.Reached | app/api/ix/insert.py:176-196 | the index of the first archive whose build raises an error other than `NotXbrlDirectoryException`: no earlier archive raises one, and that one does; the number of archives when none does |
| IxInsert.NotPushedSendsOnlyCheck | app/api/ix/insert.py:169-196 | an archive that is already active (`is_active_head`, insert.py:119-126), not an XBRL directory, or failing to build adds only its activity check to the requests and no result |
| IxInsert.PushActivates | app/api/ix/insert.py:183-188 | an archive's own requests activate its head exactly when it is pushed and its push succeeds |
| IxInsert.ActivationIffPushedOk | app/api/ix/insert.py:168-196 | `set_head_active` is requested for a head key exactly when some archive with that key was pushed and its push succeeded |
| IxInsert.ResultsSpec | app/api/ix/insert.py:168-196 | some result is true iff some archive that was not active and was built pushed successfully; no result when no archive is pushed |
| IxInsert.InsertXbrlDir | app/api/ix/insert.py:152-200 | records the results and requests above for the archives up to the first uncaught build error; such an error leaves the loop as it is; otherwise escalates iff no result is true, and the escalation is what `ApiInsertionException(msg)` raises |
| IxInsert.EscalationIsTypeError | app/api/ix/insert.py:198-200 | the escalation raises `TypeError`, not `ApiInsertionException` |
| LegacyInsert.LegacyPush | app/api/insert.py:150-223 | the failing labels in item order, stopping after a failed `ix_file_path` |
| LegacyInsert.StopIgnoresLaterItems | app/api/insert.py:155-159 | after a failed `ix_file_path`, later items change nothing |
| LegacyInsert.StopIsReportedLast | app/api/insert.py:155-159 | a failed `ix_file_path` is always reported, as the last entry |
| LegacyInsert.NoStopReportsAll | app/api/insert.py:160-219 | with no failed `ix_file_path`, every failure is reported in item order |
| LegacyInsert.FailingLabelsMembers | app/api/insert.py:160-219 | a label is reported iff some item under that label failed; every `*source_file` key is reported as `source_file` |
| LegacyInsert.EmptyIffNoFailure | app/api/insert.py:150-223 | with no failed `ix_file_path`, nothing is reported iff no item failed |
| LegacyInsert.SuccessesBound | app/api/insert.py:134-146 | at most one success per archive; a success for every archive iff every model was built and reported nothing |
| LegacyInsert.LegacyInsertDir | app/api/insert.py:122-148 | skips `None` models and counts the pushes that reported nothing |

## Left out

- HTTP, the filesystem, unzipping, `rglob`, threads, progress bars,
  printing and garbage collection are not modelled. Replies and status codes
  are inputs. The directory is the list of entry paths. The thread pool is a
  completion order over the submitted futures.
- uuid5, `uuid4`, `Utils.string_to_uuid` and `str()` of a list are
  parameters, so nothing about their values is assumed.
- Regular expressions are modelled as string predicates. `$` is taken to
  mean the end of the string; Python's `$` also matches before a final
  newline, and fact names never contain one.
- `_set_items`, `set_source_file` and the source-file id assignment of the
  managers are not part of this model. The position an item gets when none
  is given is a parameter of the manager (`defaultPosition`).
- IxManager.HeaderFirst: needs a positive default position, because the
  default is not defined in the code modelled here.
- The `if item:` guards of both pipelines are always true for the item
  dictionaries the managers produce, so no falsy item is modelled.
- IxManager.IxbrlManager.SetIxHeader: requires every fact to have a name.
  `re.search` on a missing name raises `TypeError` in the source, and that
  crash is not modelled.
- HeaderFold.Fold: requires every fact to have a name, for the same reason.
- IxManager.IxbrlManager.InitManager: requires every fact to have a name,
  because it calls `SetIxHeader`.
- IxManager.IxbrlManager.New: requires every fact to have a name, because
  it calls `InitManager`.
- The records of app/ix_tag/ixbrl.py, link.py, schema.py and
  qualitative.py (except `IxHeader`) assign `item_key`, but they do not
  declare that field, and pydantic 2 rejects such an assignment. The model
  follows the evident intent and gives each record the derived key.
- XbrlModel.XbrlModel.constructor: `IXBRLManager(directory_path,
  xbrl_id=...)` at app/ix_models/xbrl_model.py:28-30 and
  `XBRLModel(..., is_exist_source_file_id_api_url=...)` at
  app/api/ix/insert.py:177-181 pass arguments the callees do not declare.
  The model takes the managers as already built.
- The label, calculation, definition, presentation, qualitative and
  schema managers are not part of this model. Their items are opaque lists.
- XbrlModel.XbrlModel.GetAllItemsKeys: `list(set(keys))` has no defined
  order, so only distinctness and membership are stated.
- The category check of a document model (`_xbrl_category_check` calls in
  subclasses) is modelled in `BaseXbrl.BaseXbrlModel.CategoryCheck` only.
  `XBRLModel` does not call it.
- In both pipelines an exception raised by a pre-phase request, by the
  activity check or by the activation requests propagates out of the
  pipeline; that path is not modelled. Only exceptions inside pool futures
  are modelled (as `RequestRaised`). An error other than
  `NotXbrlDirectoryException` raised while building an archive's model or
  listing its items is modelled for `app/api/ix/insert.py`
  (`IxInsert.Build.BuildRaised`).
- LegacyInsert.LegacyInsertDir: an exception raised by a request, by
  `get_all_items` or by `XBRLModel.xbrl_models` in `app/api/insert.py`
  leaves the loop uncaught; the model takes every status code as given and
  has no such path.
- `BaseTag.__eq__` is modelled for `SourceFile` and `FilePath` only
  (`TagBase.Tag`). Comparing with a value that has no `__dict__` raises
  `AttributeError` in the source; that case is not modelled.
- LinkTag.LinkArc: `xlink_order` and `xlink_weight` are `Optional[float]`
  in the source. The model carries the text an f-string prints for them, so
  float parsing and rendering are not modelled.
- QualitativeTag.NewQualitative: the inherited `BaseTag.id` field and its
  36-character bound are not modelled. The "iff" holds for the four fields
  the record declares.
- LabelTag.LabelValueIdSpec, LabelTag.LabelLocIdSpec, LabelTag.LabelArcIdSpec
  and LabelTag.RoleRefsIdSpec: a supplied `id` is kept without checking its
  36-character bound.
- IxInsert.InsertApiPush: the replies to the three head requests are not
  looked at by the source, so they are not inputs.
- `insert_xbrl_zip` and `app/api/Insert.py` are thin wrappers around the
  same calls and are not modelled.
- The header's eighteen variables are kept as one record
  (`HeaderFold.HeaderState`). The `elif` chain is a rule selector proved
  to pick the first matching pattern (`HeaderFold.ClassifyIsFirstMatch`).
- LegacyInsert.LegacyInsertDir: the source never reads `count`; the model
  returns it.

## Findings

| source | as written | input that shows it | evidently intended | confidence | as-written member | corrected member |
|---|---|---|---|---|---|---|
| app/api/ix/insert.py:255 | `if response and response.status_code != 200` treats a reply as a failure only when `bool(response)` is true, and `requests.Response.__bool__` is false for every 4xx and 5xx status | a routed request answered with status 500 | any reply other than 200 (or an exception) fails the push, as the error message printed after the test says | not executed | IxInsert.FailsAsWritten (shown by IxInsert.ServerErrorPassesAsWritten) | IxInsert.Fails (used by IxInsert.AwaitAll and IxInsert.InsertApiPush; compared in IxInsert.AsWrittenMissesErrorStatuses) |
