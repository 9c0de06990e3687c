/** app/api/insert.py: the older pipeline, which sends every item one at a
    time and collects the keys whose request did not answer 200. The status
    code each item's request would get is an input. */
module LegacyInsert {
  import opened Common
  import opened Items

  /** The name a failing item is reported under, or `None` when its key
      sends no request: every key ending in `source_file` is reported as
      `source_file`, the others under their own key. */
  function LegacyLabel(key: string): Option<string>
  {
    if key == "ix_file_path" || key == "ix_head_title" then Some(key)
    else if EndsWith(key, "source_file") then Some("source_file")
    else if key in {"sc_linkbase_ref", "ix_non_numeric", "ix_non_fraction",
                    "lab_link_locs", "lab_link_arcs", "lab_link_values",
                    "cal_link_locs", "cal_link_arcs", "pre_link_locs", "pre_link_arcs",
                    "def_link_locs", "def_link_arcs", "qualitative_info"} then Some(key)
    else None
  }

  /** Whether `items[i]` sent a request that did not answer 200. */
  predicate FailsAt(items: seq<Item>, statuses: seq<int>, i: nat)
    requires |statuses| == |items| && i < |items|
  {
    LegacyLabel(items[i].key).Some? && statuses[i] != 200
  }

  /** A failed `ix_file_path` request, which ends the push. */
  predicate StopsAt(items: seq<Item>, statuses: seq<int>, i: nat)
    requires |statuses| == |items| && i < |items|
  {
    items[i].key == "ix_file_path" && statuses[i] != 200
  }

  /** `err_endpoints`: the labels of the failing items in item order, up to
      and including a failed `ix_file_path`. */
  function Err(items: seq<Item>, statuses: seq<int>): seq<string>
    requires |statuses| == |items|
  {
    if |items| == 0 then []
    else
      var rest := Err(items[1..], statuses[1..]);
      var name := LegacyLabel(items[0].key);
      if name.None? || statuses[0] == 200 then rest
      else if items[0].key == "ix_file_path" then [name.value]
      else [name.value] + rest
  }

  /** The labels of every failing item, with no stopping rule. */
  function FailingLabels(items: seq<Item>, statuses: seq<int>): (r: seq<string>)
    requires |statuses| == |items|
    ensures |r| <= |items|
  {
    if |items| == 0 then []
    else
      var name := LegacyLabel(items[0].key);
      (if name.Some? && statuses[0] != 200 then [name.value] else []) + FailingLabels(items[1..], statuses[1..])
  }

  /** `__insert_api_push` of the older pipeline. */
  method LegacyPush(items: seq<Item>, statuses: seq<int>) returns (err: seq<string>)
    requires |statuses| == |items|
    ensures err == Err(items, statuses)
  {
    err := [];
    var i := 0;
    while i < |items|
      invariant 0 <= i <= |items|
      invariant err + Err(items[i..], statuses[i..]) == Err(items, statuses)
    {
      assert items[i..][1..] == items[i + 1..] && statuses[i..][1..] == statuses[i + 1..];
      var name := LegacyLabel(items[i].key);
      if name.Some? && statuses[i] != 200 {
        err := err + [name.value];
        if items[i].key == "ix_file_path" {
          return;
        }
      }
      i := i + 1;
    }
  }

  /** After a failed `ix_file_path` nothing more is sent or reported: later
      items do not change the result. */
  lemma {:induction false} StopIgnoresLaterItems(items: seq<Item>, statuses: seq<int>, k: nat,
                                                 more: seq<Item>, moreStatuses: seq<int>)
    requires |statuses| == |items| && |moreStatuses| == |more| && k < |items| && StopsAt(items, statuses, k)
    ensures Err(items + more, statuses + moreStatuses) == Err(items, statuses)
    decreases k
  {
    assert (items + more)[0] == items[0] && (statuses + moreStatuses)[0] == statuses[0];
    if k > 0 {
      assert (items + more)[1..] == items[1..] + more;
      assert (statuses + moreStatuses)[1..] == statuses[1..] + moreStatuses;
      assert items[1..][k - 1] == items[k];
      StopIgnoresLaterItems(items[1..], statuses[1..], k - 1, more, moreStatuses);
    }
  }

  /** Without a failed `ix_file_path` every failure is reported, in order. */
  lemma {:induction false} NoStopReportsAll(items: seq<Item>, statuses: seq<int>)
    requires |statuses| == |items|
    requires forall i :: 0 <= i < |items| ==> !StopsAt(items, statuses, i)
    ensures Err(items, statuses) == FailingLabels(items, statuses)
    decreases |items|
  {
    if |items| > 0 {
      assert !StopsAt(items, statuses, 0);
      forall i | 0 <= i < |items| - 1
        ensures !StopsAt(items[1..], statuses[1..], i)
      {
        assert !StopsAt(items, statuses, i + 1);
      }
      NoStopReportsAll(items[1..], statuses[1..]);
    }
  }

  /** A name is reported exactly when some item under it failed. */
  lemma {:induction false} FailingLabelsMembers(items: seq<Item>, statuses: seq<int>, name: string)
    requires |statuses| == |items|
    ensures name in FailingLabels(items, statuses) <==>
              exists i :: 0 <= i < |items| && FailsAt(items, statuses, i) && LegacyLabel(items[i].key) == Some(name)
    decreases |items|
  {
    if |items| > 0 {
      FailingLabelsMembers(items[1..], statuses[1..], name);
      if exists i :: 0 <= i < |items| && FailsAt(items, statuses, i) && LegacyLabel(items[i].key) == Some(name) {
        var i :| 0 <= i < |items| && FailsAt(items, statuses, i) && LegacyLabel(items[i].key) == Some(name);
        if i > 0 {
          assert FailsAt(items[1..], statuses[1..], i - 1);
        }
      }
      if exists i :: 0 <= i < |items| - 1 && FailsAt(items[1..], statuses[1..], i) &&
                     LegacyLabel(items[1..][i].key) == Some(name) {
        var i :| 0 <= i < |items| - 1 && FailsAt(items[1..], statuses[1..], i) &&
                 LegacyLabel(items[1..][i].key) == Some(name);
        assert FailsAt(items, statuses, i + 1);
      }
    }
  }

  /** A failed `ix_file_path` is always reported, as the last entry. */
  lemma {:induction false} StopIsReportedLast(items: seq<Item>, statuses: seq<int>, k: nat)
    requires |statuses| == |items| && k < |items| && StopsAt(items, statuses, k)
    ensures |Err(items, statuses)| > 0 && Err(items, statuses)[|Err(items, statuses)| - 1] == "ix_file_path"
    decreases k
  {
    if !StopsAt(items, statuses, 0) {
      assert items[1..][k - 1] == items[k];
      StopIsReportedLast(items[1..], statuses[1..], k - 1);
    }
  }

  /** Without a failed `ix_file_path`, the push reports nothing exactly when
      no item failed. */
  lemma EmptyIffNoFailure(items: seq<Item>, statuses: seq<int>)
    requires |statuses| == |items|
    requires forall i :: 0 <= i < |items| ==> !StopsAt(items, statuses, i)
    ensures Err(items, statuses) == [] <==> forall i :: 0 <= i < |items| ==> !FailsAt(items, statuses, i)
  {
    NoStopReportsAll(items, statuses);
    if Err(items, statuses) != [] {
      FailingLabelsMembers(items, statuses, Err(items, statuses)[0]);
    } else {
      forall i | 0 <= i < |items|
        ensures !FailsAt(items, statuses, i)
      {
        if FailsAt(items, statuses, i) {
          FailingLabelsMembers(items, statuses, LegacyLabel(items[i].key).value);
        }
      }
    }
  }

  /** One archive as `XBRLModel.xbrl_models` yields it: `None`, or its items
      with the status each item's request would get. */
  datatype LegacyArchive = LegacyArchive(items: seq<Item>, statuses: seq<int>)

  predicate Aligned(models: seq<Option<LegacyArchive>>)
  {
    forall i :: 0 <= i < |models| && models[i].Some? ==> |models[i].value.statuses| == |models[i].value.items|
  }

  /** An archive that was built and whose push reported nothing. */
  predicate Succeeded(m: Option<LegacyArchive>)
  {
    m.Some? && |m.value.statuses| == |m.value.items| && Err(m.value.items, m.value.statuses) == []
  }

  /** The number of archives whose push reported nothing. */
  function Successes(models: seq<Option<LegacyArchive>>): nat
  {
    if |models| == 0 then 0
    else Successes(models[..|models| - 1]) + (if Succeeded(models[|models| - 1]) then 1 else 0)
  }

  /** At most one success per archive; as many as there are archives
      exactly when every archive was built and reported nothing. */
  lemma {:induction false} SuccessesBound(models: seq<Option<LegacyArchive>>)
    ensures Successes(models) <= |models|
    ensures Successes(models) == |models| <==> forall i :: 0 <= i < |models| ==> Succeeded(models[i])
    decreases |models|
  {
    if |models| > 0 {
      var init := models[..|models| - 1];
      SuccessesBound(init);
      if forall i :: 0 <= i < |models| ==> Succeeded(models[i]) {
        forall i | 0 <= i < |init|
          ensures Succeeded(init[i])
        {
          assert init[i] == models[i];
        }
      }
    }
  }

  /** `insert_xbrl_dir` of the older pipeline: skips `None` models and
      counts the pushes that reported nothing. */
  method LegacyInsertDir(models: seq<Option<LegacyArchive>>) returns (count: nat)
    requires Aligned(models)
    ensures count == Successes(models)
  {
    count := 0;
    var i := 0;
    while i < |models|
      invariant 0 <= i <= |models|
      invariant count == Successes(models[..i])
    {
      assert models[..i + 1][..i] == models[..i];
      match models[i] {
        case None =>
        case Some(m) =>
          var err := LegacyPush(m.items, m.statuses);
          if |err| == 0 {
            count := count + 1;
          }
      }
      i := i + 1;
    }
    assert models[..i] == models;
  }
}
