/** app/ix_models/xbrl_model.py: one archive with all its managers, and the
    ordered list of every item they hold, headed by the archive's file-path
    record. Managers other than the iXBRL one are represented by the item
    lists they hold. */
module XbrlModel {
  import opened Common
  import opened TagBase
  import opened Items
  import opened BaseXbrl
  import opened IxManager

  /** `_init_manager`: a manager that raises `XbrlListEmptyError` is
      recorded as `None`; the error goes no further. */
  function InitManagerOutcome(r: Result<seq<Item>, ManagerError>): (m: Option<seq<Item>>)
    ensures m.None? <==> r.Failure?
    ensures r.Success? ==> m == Some(r.value)
  {
    match r
    case Success(items) => Some(items)
    case Failure(_) => None
  }

  /** A manager that `get_all_manager` reports, under its dictionary key. */
  datatype Manager = Manager(name: string, items: seq<Item>)

  /** The dictionary keys in the order the dictionary declares them. */
  const ManagerNames: seq<string> := ["ix", "lab", "cal", "def", "pre", "qualitative", "schema"]

  /** Keeps the slots that hold a manager, in order. */
  function Present(slots: seq<(string, Option<seq<Item>>)>): (r: seq<Manager>)
    ensures |r| <= |slots|
  {
    if |slots| == 0 then []
    else
      var last := slots[|slots| - 1];
      Present(slots[..|slots| - 1]) + (if last.1.Some? then [Manager(last.0, last.1.value)] else [])
  }

  /** `get_all_manager`: the seven slots in declared order, `None`s removed.
      The iXBRL, qualitative and schema managers are built without the
      `_init_manager` guard, so they are always there. */
  function AllManagers(ix: seq<Item>, lab: Option<seq<Item>>, cal: Option<seq<Item>>, def: Option<seq<Item>>,
                       pre: Option<seq<Item>>, qualitative: seq<Item>, schema: seq<Item>): seq<Manager>
  {
    Present(Slots(ix, lab, cal, def, pre, qualitative, schema))
  }

  lemma {:induction false} PresentAppend(a: seq<(string, Option<seq<Item>>)>, b: seq<(string, Option<seq<Item>>)>)
    ensures Present(a + b) == Present(a) + Present(b)
    decreases |b|
  {
    if |b| == 0 {
      assert a + b == a;
    } else {
      assert (a + b)[..|a + b| - 1] == a + b[..|b| - 1];
      PresentAppend(a, b[..|b| - 1]);
    }
  }

  /** A manager is reported exactly when its slot holds one. */
  lemma {:induction false} PresentMembers(slots: seq<(string, Option<seq<Item>>)>)
    ensures forall n, it :: Manager(n, it) in Present(slots) <==> (n, Some(it)) in slots
    decreases |slots|
  {
    if |slots| > 0 {
      PresentMembers(slots[..|slots| - 1]);
      assert slots == slots[..|slots| - 1] + [slots[|slots| - 1]];
    }
  }

  /** The names of the reported managers. */
  function Names(ms: seq<Manager>): seq<string>
  {
    seq(|ms|, i requires 0 <= i < |ms| => ms[i].name)
  }

  /** The seven slots of the dictionary display, in declared order. */
  function Slots(ix: seq<Item>, lab: Option<seq<Item>>, cal: Option<seq<Item>>, def: Option<seq<Item>>,
                 pre: Option<seq<Item>>, qualitative: seq<Item>, schema: seq<Item>): seq<(string, Option<seq<Item>>)>
  {
    [("ix", Some(ix)), ("lab", lab), ("cal", cal), ("def", def), ("pre", pre),
     ("qualitative", Some(qualitative)), ("schema", Some(schema))]
  }

  /** `get_all_manager` starts with `ix` and ends with `qualitative` and
      then `schema`, whichever link managers are missing. */
  lemma AllManagersEnds(ix: seq<Item>, lab: Option<seq<Item>>, cal: Option<seq<Item>>, def: Option<seq<Item>>,
                        pre: Option<seq<Item>>, qualitative: seq<Item>, schema: seq<Item>)
    ensures var ms := AllManagers(ix, lab, cal, def, pre, qualitative, schema);
            3 <= |ms| <= 7 && ms[0] == Manager("ix", ix) && ms[|ms| - 1] == Manager("schema", schema) &&
            ms[|ms| - 2] == Manager("qualitative", qualitative)
  {
    var head := [("ix", Some(ix))];
    var mid := [("lab", lab), ("cal", cal), ("def", def), ("pre", pre)];
    var tail := [("qualitative", Some(qualitative)), ("schema", Some(schema))];
    assert Slots(ix, lab, cal, def, pre, qualitative, schema) == head + mid + tail;
    PresentAppend(head, mid);
    PresentAppend(head + mid, tail);
    assert Present(head) == [Manager("ix", ix)];
    assert tail[..1] == [("qualitative", Some(qualitative))];
    assert Present(tail) == [Manager("qualitative", qualitative), Manager("schema", schema)];
  }

  /** The manager in a slot, or nothing when the slot holds `None`. */
  function Opt(n: string, m: Option<seq<Item>>): seq<Manager>
  {
    if m.Some? then [Manager(n, m.value)] else []
  }

  /** The dictionary comprehension keeps insertion order: the managers come
      in declared order with the absent link managers removed, each with its
      own items. */
  lemma AllManagersInOrder(ix: seq<Item>, lab: Option<seq<Item>>, cal: Option<seq<Item>>, def: Option<seq<Item>>,
                           pre: Option<seq<Item>>, qualitative: seq<Item>, schema: seq<Item>)
    ensures AllManagers(ix, lab, cal, def, pre, qualitative, schema) ==
              [Manager("ix", ix)] + Opt("lab", lab) + Opt("cal", cal) + Opt("def", def) + Opt("pre", pre) +
              [Manager("qualitative", qualitative), Manager("schema", schema)]
  {
    var s1, s2, s3, s4, s5 := [("ix", Some(ix))], [("lab", lab)], [("cal", cal)], [("def", def)], [("pre", pre)];
    var s67 := [("qualitative", Some(qualitative)), ("schema", Some(schema))];
    assert Slots(ix, lab, cal, def, pre, qualitative, schema) == s1 + s2 + s3 + s4 + s5 + s67;
    PresentSingle("ix", Some(ix));
    PresentSingle("lab", lab);
    PresentSingle("cal", cal);
    PresentSingle("def", def);
    PresentSingle("pre", pre);
    assert s67[..1] == [("qualitative", Some(qualitative))];
    assert Present(s67) == [Manager("qualitative", qualitative), Manager("schema", schema)];
    PresentAppend(s1, s2);
    PresentAppend(s1 + s2, s3);
    PresentAppend(s1 + s2 + s3, s4);
    PresentAppend(s1 + s2 + s3 + s4, s5);
    PresentAppend(s1 + s2 + s3 + s4 + s5, s67);
  }

  lemma PresentSingle(n: string, m: Option<seq<Item>>)
    ensures Present([(n, m)]) == Opt(n, m)
  {
    assert [(n, m)][..0] == [];
  }

  /** The names in order: `ix`, the present link managers in declared
      order, then `qualitative` and `schema`. */
  lemma AllManagersNames(ix: seq<Item>, lab: Option<seq<Item>>, cal: Option<seq<Item>>, def: Option<seq<Item>>,
                         pre: Option<seq<Item>>, qualitative: seq<Item>, schema: seq<Item>)
    ensures Names(AllManagers(ix, lab, cal, def, pre, qualitative, schema)) ==
              ["ix"] + Names(Opt("lab", lab)) + Names(Opt("cal", cal)) + Names(Opt("def", def)) +
              Names(Opt("pre", pre)) + ["qualitative", "schema"]
  {
    AllManagersInOrder(ix, lab, cal, def, pre, qualitative, schema);
    var l, c, d, pr := Opt("lab", lab), Opt("cal", cal), Opt("def", def), Opt("pre", pre);
    var hd, tl := [Manager("ix", ix)], [Manager("qualitative", qualitative), Manager("schema", schema)];
    NamesAppend(hd, l);
    NamesAppend(hd + l, c);
    NamesAppend(hd + l + c, d);
    NamesAppend(hd + l + c + d, pr);
    NamesAppend(hd + l + c + d + pr, tl);
    assert Names(hd) == ["ix"] && Names(tl) == ["qualitative", "schema"];
  }

  lemma NamesAppend(a: seq<Manager>, b: seq<Manager>)
    ensures Names(a + b) == Names(a) + Names(b)
  {
  }

  /** With every link manager present, all seven names in declared order. */
  lemma AllManagersFull(ix: seq<Item>, lab: Option<seq<Item>>, cal: Option<seq<Item>>, def: Option<seq<Item>>,
                        pre: Option<seq<Item>>, qualitative: seq<Item>, schema: seq<Item>)
    requires lab.Some? && cal.Some? && def.Some? && pre.Some?
    ensures Names(AllManagers(ix, lab, cal, def, pre, qualitative, schema)) == ManagerNames
  {
    PresentAllSome(Slots(ix, lab, cal, def, pre, qualitative, schema));
  }

  lemma {:induction false} PresentAllSome(slots: seq<(string, Option<seq<Item>>)>)
    requires forall i :: 0 <= i < |slots| ==> slots[i].1.Some?
    ensures |Present(slots)| == |slots|
    ensures forall i :: 0 <= i < |slots| ==> Present(slots)[i].name == slots[i].0
    decreases |slots|
  {
    if |slots| > 0 {
      PresentAllSome(slots[..|slots| - 1]);
    }
  }

  /** A manager is reported exactly when its slot holds one. */
  lemma AllManagersMembers(ix: seq<Item>, lab: Option<seq<Item>>, cal: Option<seq<Item>>, def: Option<seq<Item>>,
                           pre: Option<seq<Item>>, qualitative: seq<Item>, schema: seq<Item>)
    ensures forall n, it :: Manager(n, it) in AllManagers(ix, lab, cal, def, pre, qualitative, schema) <==>
              (n, Some(it)) in Slots(ix, lab, cal, def, pre, qualitative, schema)
  {
    PresentMembers(Slots(ix, lab, cal, def, pre, qualitative, schema));
  }

  /** The reported managers' items, concatenated in manager order. */
  function ConcatItems(ms: seq<Manager>): seq<Item>
  {
    if |ms| == 0 then [] else ConcatItems(ms[..|ms| - 1]) + ms[|ms| - 1].items
  }

  function TotalItems(ms: seq<Manager>): nat
  {
    if |ms| == 0 then 0 else TotalItems(ms[..|ms| - 1]) + |ms[|ms| - 1].items|
  }

  lemma {:induction false} ConcatItemsLength(ms: seq<Manager>)
    ensures |ConcatItems(ms)| == TotalItems(ms)
    decreases |ms|
  {
    if |ms| > 0 {
      ConcatItemsLength(ms[..|ms| - 1]);
    }
  }

  /** The `ix_file_path` item wrapping the archive's file-path record. */
  function FilePathItem(fp: FilePath): Item
  {
    Item("ix_file_path", None, FilePathDump(fp), None)
  }

  /** The item keys, in item order. */
  function KeysOf(items: seq<Item>): seq<string>
  {
    seq(|items|, i requires 0 <= i < |items| => items[i].key)
  }

  class XbrlModel {
    var zipPath: string
    var xbrlId: string
    const ixManager: IxbrlManager
    var lab: Option<seq<Item>>
    var cal: Option<seq<Item>>
    var def: Option<seq<Item>>
    var pre: Option<seq<Item>>
    var qualitative: seq<Item>
    var schema: seq<Item>
    var allItems: Option<seq<Item>>

    /** `get_all_manager` on the current managers. */
    function Managers(): seq<Manager>
      reads this, ixManager
    {
      AllManagers(ixManager.items, lab, cal, def, pre, qualitative, schema)
    }

    /** `__init__` after the archive was opened: the four link managers go
        through `_init_manager`, and the item cache starts empty. */
    constructor (zipPath: string, xbrlId: string, ixManager: IxbrlManager,
                 labOutcome: Result<seq<Item>, ManagerError>, calOutcome: Result<seq<Item>, ManagerError>,
                 defOutcome: Result<seq<Item>, ManagerError>, preOutcome: Result<seq<Item>, ManagerError>,
                 qualitative: seq<Item>, schema: seq<Item>)
      ensures this.zipPath == zipPath && this.xbrlId == xbrlId && this.ixManager == ixManager
      ensures lab == InitManagerOutcome(labOutcome) && cal == InitManagerOutcome(calOutcome)
      ensures def == InitManagerOutcome(defOutcome) && pre == InitManagerOutcome(preOutcome)
      ensures this.qualitative == qualitative && this.schema == schema
      ensures allItems == None
    {
      this.zipPath := zipPath;
      this.xbrlId := xbrlId;
      this.ixManager := ixManager;
      lab := InitManagerOutcome(labOutcome);
      cal := InitManagerOutcome(calOutcome);
      def := InitManagerOutcome(defOutcome);
      pre := InitManagerOutcome(preOutcome);
      this.qualitative := qualitative;
      this.schema := schema;
      allItems := None;
    }

    /** `get_file_path`: the archive's file-path record, which pydantic
        rejects unless the id is 36 characters long; its key is derived from
        the id and the zip path whenever both are non-empty. */
    method GetFilePath(p: Primitives) returns (r: Result<FilePath, ValidationError>)
      ensures r.Success? <==> |xbrlId| == 36
      ensures r.Success? ==> r.value.xbrlId == Some(xbrlId) && r.value.path == Some(zipPath)
      ensures r.Success? ==> r.value.id == (if |zipPath| > 0 then Some(p.uuid5(xbrlId + "_" + zipPath)) else None)
    {
      r := NewFilePath(p, None, Some(xbrlId), Some(zipPath));
    }

    /** `get_all_items`: the file-path item, then every item of every
        reported manager in manager order; the result refreshes the cache. */
    method GetAllItems(p: Primitives) returns (r: Result<seq<Item>, ValidationError>)
      modifies this
      ensures zipPath == old(zipPath) && xbrlId == old(xbrlId) && lab == old(lab) && cal == old(cal)
      ensures def == old(def) && pre == old(pre) && qualitative == old(qualitative) && schema == old(schema)
      ensures r.Failure? <==> |xbrlId| != 36
      ensures r.Failure? ==> allItems == old(allItems)
      ensures r.Success? ==> allItems == Some(r.value)
      ensures r.Success? ==> |r.value| == 1 + TotalItems(Managers()) && r.value[0].key == "ix_file_path"
      ensures r.Success? ==> r.value[1..] == ConcatItems(Managers())
    {
      var fp := GetFilePath(p);
      if fp.Failure? {
        return Failure(fp.error);
      }
      var lists := [FilePathItem(fp.value)];
      var ms := Managers();
      var j := 0;
      while j < |ms|
        invariant 0 <= j <= |ms|
        invariant lists == [FilePathItem(fp.value)] + ConcatItems(ms[..j])
      {
        assert ms[..j + 1][..j] == ms[..j];
        var k := 0;
        while k < |ms[j].items|
          invariant 0 <= k <= |ms[j].items|
          invariant lists == [FilePathItem(fp.value)] + ConcatItems(ms[..j]) + ms[j].items[..k]
        {
          assert ms[j].items[..k + 1] == ms[j].items[..k] + [ms[j].items[k]];
          lists := lists + [ms[j].items[k]];
          k := k + 1;
        }
        assert ms[j].items[..k] == ms[j].items;
        j := j + 1;
      }
      assert ms[..j] == ms;
      ConcatItemsLength(ms);
      allItems := Some(lists);
      return Success(lists);
    }

    /** `all_items`: the cache when it is filled, otherwise `get_all_items`. */
    method AllItems(p: Primitives) returns (r: Result<seq<Item>, ValidationError>)
      modifies this
      ensures zipPath == old(zipPath) && xbrlId == old(xbrlId) && lab == old(lab) && cal == old(cal)
      ensures def == old(def) && pre == old(pre) && qualitative == old(qualitative) && schema == old(schema)
      ensures old(allItems).Some? ==> r == Success(old(allItems).value) && allItems == old(allItems)
      ensures old(allItems).None? ==> (r.Failure? <==> |xbrlId| != 36)
      ensures old(allItems).None? && r.Success? ==>
                |r.value| >= 1 && r.value[0].key == "ix_file_path" && r.value[1..] == ConcatItems(Managers())
      ensures r.Success? ==> allItems == Some(r.value)
    {
      if allItems.Some? {
        return Success(allItems.value);
      }
      r := GetAllItems(p);
    }

    /** `get_all_items_keys`: each key of `all_items` exactly once. The
        source's `list(set(...))` fixes no order, so none is promised. */
    method GetAllItemsKeys(p: Primitives) returns (r: Result<seq<string>, ValidationError>)
      modifies this
      ensures zipPath == old(zipPath) && xbrlId == old(xbrlId) && lab == old(lab) && cal == old(cal)
      ensures def == old(def) && pre == old(pre) && qualitative == old(qualitative) && schema == old(schema)
      ensures r.Success? ==> allItems.Some? && (forall k :: k in r.value <==> k in KeysOf(allItems.value))
      ensures r.Success? ==> forall i, j :: 0 <= i < j < |r.value| ==> r.value[i] != r.value[j]
    {
      var items := AllItems(p);
      if items.Failure? {
        return Failure(items.error);
      }
      var keys: seq<string> := [];
      var i := 0;
      while i < |items.value|
        invariant 0 <= i <= |items.value|
        invariant keys == KeysOf(items.value[..i])
      {
        keys := keys + [items.value[i].key];
        i := i + 1;
      }
      assert items.value[..i] == items.value;
      var distinct: seq<string> := [];
      i := 0;
      while i < |keys|
        invariant 0 <= i <= |keys|
        invariant forall k :: k in distinct <==> k in keys[..i]
        invariant forall a, b :: 0 <= a < b < |distinct| ==> distinct[a] != distinct[b]
      {
        assert keys[..i + 1] == keys[..i] + [keys[i]];
        if keys[i] !in distinct {
          distinct := distinct + [keys[i]];
        }
        i := i + 1;
      }
      assert keys[..i] == keys;
      return Success(distinct);
    }
  }
}
