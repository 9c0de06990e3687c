/** app/api/ix/insert.py: pushing every item of every archive of a
    directory to the API. HTTP replies are inputs: the status code a request
    gets, or the exception it raises. The thread pool is modelled as a
    completion order over the submitted requests, every one of which is
    sent. */
module IxInsert {
  import opened Common
  import opened TagBase
  import opened Items
  import opened BaseXbrl
  import opened ApiExceptions

  /** The API calls the pipeline makes; the URLs they stand for are
      constants of `app/api/endpoints.py`. */
  datatype Endpoint =
    | PostSchemas | PostNonNumerics | PostNonFractions
    | PostLabelLocs | PostLabelArcs | PostLabelValues
    | PostCalLocs | PostCalArcs | PostPreLocs | PostPreArcs | PostDefLocs | PostDefArcs
    | PostQualitative
    | PostFilePath | PostHeadTitles | PostSources
    | GetIsActiveHead | PatchHeadActive | PatchHeadGenerate | PostTitleSummary

  /** The keys `send_request` routes, in the order it tests them. */
  const RoutedKeys: seq<string> := [
    "sc_linkbase_ref", "ix_non_numeric", "ix_non_fraction",
    "lab_link_locs", "lab_link_arcs", "lab_link_values",
    "cal_link_locs", "cal_link_arcs", "pre_link_locs", "pre_link_arcs",
    "def_link_locs", "def_link_arcs", "qualitative_info"]

  /** `send_request`: the endpoint an item's key is sent to, or `None` when
      it sends nothing. */
  function Route(key: string): Option<Endpoint>
  {
    if key == "sc_linkbase_ref" then Some(PostSchemas)
    else if key == "ix_non_numeric" then Some(PostNonNumerics)
    else if key == "ix_non_fraction" then Some(PostNonFractions)
    else if key == "lab_link_locs" then Some(PostLabelLocs)
    else if key == "lab_link_arcs" then Some(PostLabelArcs)
    else if key == "lab_link_values" then Some(PostLabelValues)
    else if key == "cal_link_locs" then Some(PostCalLocs)
    else if key == "cal_link_arcs" then Some(PostCalArcs)
    else if key == "pre_link_locs" then Some(PostPreLocs)
    else if key == "pre_link_arcs" then Some(PostPreArcs)
    else if key == "def_link_locs" then Some(PostDefLocs)
    else if key == "def_link_arcs" then Some(PostDefArcs)
    else if key == "qualitative_info" then Some(PostQualitative)
    else None
  }

  /** The key `send_request` sends to a routed endpoint. */
  function KeyOf(e: Endpoint): Option<string>
  {
    match e
    case PostSchemas => Some("sc_linkbase_ref")
    case PostNonNumerics => Some("ix_non_numeric")
    case PostNonFractions => Some("ix_non_fraction")
    case PostLabelLocs => Some("lab_link_locs")
    case PostLabelArcs => Some("lab_link_arcs")
    case PostLabelValues => Some("lab_link_values")
    case PostCalLocs => Some("cal_link_locs")
    case PostCalArcs => Some("cal_link_arcs")
    case PostPreLocs => Some("pre_link_locs")
    case PostPreArcs => Some("pre_link_arcs")
    case PostDefLocs => Some("def_link_locs")
    case PostDefArcs => Some("def_link_arcs")
    case PostQualitative => Some("qualitative_info")
    case _ => None
  }

  /** Each routed key goes to its own endpoint, which no other key reaches;
      the pre-phase and head endpoints are never routed to. */
  lemma RouteInverse(key: string)
    ensures Route(key).Some? ==> KeyOf(Route(key).value) == Some(key)
    ensures KeyOf(PostFilePath).None? && KeyOf(PostHeadTitles).None? && KeyOf(PostSources).None?
    ensures KeyOf(GetIsActiveHead).None? && KeyOf(PatchHeadActive).None?
    ensures KeyOf(PatchHeadGenerate).None? && KeyOf(PostTitleSummary).None?
  {
  }

  /** Two keys routed to the same endpoint are the same key. */
  lemma RouteInjective(key: string, other: string)
    requires Route(key).Some? && Route(key) == Route(other)
    ensures key == other
  {
    RouteInverse(key);
    RouteInverse(other);
  }

  /** Exactly the thirteen keys are routed. */
  lemma RoutedExactly(key: string)
    ensures Route(key).Some? <==> key in RoutedKeys
    ensures |RoutedKeys| == 13
  {
    if key in RoutedKeys {
      var i :| 0 <= i < |RoutedKeys| && RoutedKeys[i] == key;
    }
  }

  /** Keys that `send_request` does not route: the contexts, the file path,
      the header and every key ending in `source_file`. */
  lemma UnroutedKeys(key: string)
    ensures Route("ix_context") == None && Route("ix_file_path") == None && Route("ix_head_title") == None
    ensures EndsWith(key, "source_file") ==> Route(key) == None
  {
    SourceFileUnrouted(key);
  }

  lemma SourceFileUnrouted(key: string)
    ensures EndsWith(key, "source_file") ==> Route(key) == None
  {
    if EndsWith(key, "source_file") {
      // Every routed key ends in a letter other than 'e'.
      assert key[|key| - 1] == key[|key| - 11..][10] == 'e';
    }
  }

  /** The sequential pre-phase: file path, header and source files. */
  function PreRoute(key: string): Option<Endpoint>
  {
    if key == "ix_file_path" then Some(PostFilePath)
    else if key == "ix_head_title" then Some(PostHeadTitles)
    else if EndsWith(key, "source_file") then Some(PostSources)
    else None
  }

  /** No item is sent both in the pre-phase and by `send_request`. */
  lemma PhasesDisjoint(key: string)
    ensures PreRoute(key).Some? ==> Route(key).None?
  {
    UnroutedKeys(key);
  }

  datatype Request = ItemRequest(endpoint: Endpoint, item: Item) | HeadRequest(endpoint: Endpoint, headItemKey: string)

  /** The requests sent for `items` when each key is sent where `route`
      says, in item order. */
  function RequestsVia(items: seq<Item>, route: string -> Option<Endpoint>): (r: seq<Request>)
    ensures |r| <= |items|
  {
    if |items| == 0 then []
    else
      var it := items[|items| - 1];
      var e := route(it.key);
      RequestsVia(items[..|items| - 1], route) + (if e.Some? then [ItemRequest(e.value, it)] else [])
  }

  /** The three head requests after a successful push. */
  function FinalRequests(headItemKey: string): seq<Request>
  {
    [HeadRequest(PatchHeadActive, headItemKey), HeadRequest(PatchHeadGenerate, headItemKey),
     HeadRequest(PostTitleSummary, headItemKey)]
  }

  /** What a future yields: no request (`None`), a reply with a status code,
      or an exception raised while sending. */
  datatype Reply = NoRequest | Status(code: int) | RequestRaised

  /** `bool(response)` is `response.ok`: false for 4xx and 5xx codes. */
  predicate ResponseTruthy(code: int)
  {
    !(400 <= code < 600)
  }

  /** The failure test as written: `response and response.status_code != 200`,
      or an exception. */
  predicate FailsAsWritten(r: Reply)
  {
    r.RequestRaised? || (r.Status? && ResponseTruthy(r.code) && r.code != 200)
  }

  /** The failure test the messages describe: any reply other than 200,
      or an exception. Requests not sent do not fail. */
  predicate Fails(r: Reply)
  {
    r.RequestRaised? || (r.Status? && r.code != 200)
  }

  /** The two tests differ exactly on 4xx and 5xx replies, which the test as
      written lets through as successes. */
  lemma AsWrittenMissesErrorStatuses(r: Reply)
    ensures FailsAsWritten(r) != Fails(r) <==> r.Status? && 400 <= r.code < 600
    ensures FailsAsWritten(r) ==> Fails(r)
  {
  }

  /** A 500 reply: accepted as written, rejected by the corrected test. */
  lemma ServerErrorPassesAsWritten()
    ensures !FailsAsWritten(Status(500)) && Fails(Status(500))
  {
    AsWrittenMissesErrorStatuses(Status(500));
  }

  /** The reply an item's future yields, given what the server would answer. */
  function ReplyFor(item: Item, served: Reply): Reply
  {
    if Route(item.key).Some? then served else NoRequest
  }

  /** Every future yields a success. */
  predicate AllSucceed(items: seq<Item>, served: seq<Reply>)
    requires |served| == |items|
  {
    forall i :: 0 <= i < |items| ==> !Fails(ReplyFor(items[i], served[i]))
  }

  /** `as_completed` yields every submitted future once, in some order. */
  predicate CompletionOrder(order: seq<nat>, n: nat)
  {
    |order| == n && (forall j :: 0 <= j < |order| ==> order[j] < n) && (forall i :: 0 <= i < n ==> i in order)
  }

  /** Items with unrouted keys never fail the push, whatever the server
      would have answered. */
  lemma UnroutedNeverFails(item: Item, served: Reply)
    requires Route(item.key).None?
    ensures !Fails(ReplyFor(item, served))
  {
  }

  /** `__insert_api_push`: the pre-phase requests one by one, then every
      routed request through the pool; the first failing future in
      completion order makes the result false and skips the head requests.
      The head replies are not looked at. */
  method InsertApiPush(items: seq<Item>, headItemKey: string, served: seq<Reply>, order: seq<nat>)
    returns (pushed: bool, requests: seq<Request>)
    requires |served| == |items| && CompletionOrder(order, |items|)
    ensures pushed <==> AllSucceed(items, served)
    ensures requests == RequestsVia(items, PreRoute) + RequestsVia(items, Route) + (if pushed then FinalRequests(headItemKey) else [])
  {
    var pre := Send(items, PreRoute);
    // Submitting to the pool sends every routed request.
    var routed := Send(items, Route);
    requests := pre + routed;
    pushed := AwaitAll(items, served, order);
    if pushed {
      requests := requests + FinalRequests(headItemKey);
    }
  }

  /** Sends, in item order, the request each item's key is routed to: by
      the pre-phase (`PreRoute`) or by `send_request` (`Route`). */
  method Send(items: seq<Item>, route: string -> Option<Endpoint>) returns (requests: seq<Request>)
    ensures requests == RequestsVia(items, route)
  {
    requests := [];
    var i := 0;
    while i < |items|
      invariant 0 <= i <= |items|
      invariant requests == RequestsVia(items[..i], route)
    {
      assert items[..i + 1][..i] == items[..i];
      var e := route(items[i].key);
      if e.Some? {
        requests := requests + [ItemRequest(e.value, items[i])];
      }
      i := i + 1;
    }
    assert items[..i] == items;
  }

  /** The `as_completed` loop: false at the first failing future in
      completion order, true when none fails. */
  method AwaitAll(items: seq<Item>, served: seq<Reply>, order: seq<nat>) returns (ok: bool)
    requires |served| == |items| && CompletionOrder(order, |items|)
    ensures ok <==> AllSucceed(items, served)
  {
    var j := 0;
    while j < |order|
      invariant 0 <= j <= |order|
      invariant forall m :: 0 <= m < j ==> !Fails(ReplyFor(items[order[m]], served[order[m]]))
    {
      var k := order[j];
      var reply := ReplyFor(items[k], served[k]);
      if Fails(reply) {
        return false;
      }
      j := j + 1;
    }
    forall i | 0 <= i < |items|
      ensures !Fails(ReplyFor(items[i], served[i]))
    {
      assert i in order;
      var m :| 0 <= m < |order| && order[m] == i;
    }
    return true;
  }

  /** The verdict does not depend on the completion order. */
  lemma VerdictIgnoresOrder(items: seq<Item>, served: seq<Reply>, order1: seq<nat>, order2: seq<nat>)
    requires |served| == |items| && CompletionOrder(order1, |items|) && CompletionOrder(order2, |items|)
    ensures (forall j :: 0 <= j < |order1| ==> !Fails(ReplyFor(items[order1[j]], served[order1[j]]))) <==>
            (forall j :: 0 <= j < |order2| ==> !Fails(ReplyFor(items[order2[j]], served[order2[j]])))
  {
    if forall j :: 0 <= j < |order1| ==> !Fails(ReplyFor(items[order1[j]], served[order1[j]])) {
      forall j | 0 <= j < |order2|
        ensures !Fails(ReplyFor(items[order2[j]], served[order2[j]]))
      {
        assert order2[j] in order1;
        var m :| 0 <= m < |order1| && order1[m] == order2[j];
      }
    }
    if forall j :: 0 <= j < |order2| ==> !Fails(ReplyFor(items[order2[j]], served[order2[j]])) {
      forall j | 0 <= j < |order1|
        ensures !Fails(ReplyFor(items[order1[j]], served[order1[j]]))
      {
        assert order1[j] in order2;
        var m :| 0 <= m < |order2| && order2[m] == order1[j];
      }
    }
  }

  /** The reply to the `is_active_head` request: its status and whether the
      decoded body is truthy. */
  datatype HeadCheck = HeadCheck(status: int, bodyTruthy: bool)

  /** `is_active_head`: the decoded body on 200, `False` on anything else. */
  predicate IsActiveHead(c: HeadCheck)
  {
    c.status == 200 && c.bodyTruthy
  }

  /** Building the model of an archive and listing its items either raises
      `NotXbrlDirectoryException`, which `insert_xbrl_dir` catches, raises
      another error (named by its class, as `XbrlListEmptyError` from
      `IXBRLManager`), which leaves `insert_xbrl_dir`, or yields the items,
      with the server's answers to them and the pool's completion order. */
  datatype Build =
    | NotXbrlDirectory
    | BuildRaised(error: string)
    | Built(items: seq<Item>, served: seq<Reply>, order: seq<nat>)

  datatype Archive = Archive(zipPath: string, head: HeadCheck, build: Build)

  predicate WellFormed(a: Archive)
  {
    a.build.Built? ==> |a.build.served| == |a.build.items| && CompletionOrder(a.build.order, |a.build.items|)
  }

  /** The head item key: the id of the zip file's name. */
  function HeadKey(p: Primitives, a: Archive): string
  {
    p.stringToUuid(BaseName(a.zipPath))
  }

  /** The head key is the archive's `xbrl_id`. */
  lemma HeadKeyIsXbrlId(p: Primitives, a: Archive)
    ensures HeadKey(p, a) == XbrlIdOf(p, a.zipPath)
  {
  }

  /** Whether an archive takes part: not active, and its model was built. */
  predicate Pushes(a: Archive)
  {
    !IsActiveHead(a.head) && a.build.Built?
  }

  /** Whether building the archive's model raises an error that is not
      caught. */
  predicate Raises(a: Archive)
  {
    !IsActiveHead(a.head) && a.build.BuildRaised?
  }

  /** How many archives `insert_xbrl_dir` gets through before an uncaught
      error: the index of the first archive that raises one, or the number
      of archives when none does. */
  function Reached(archives: seq<Archive>): (k: nat)
    ensures k <= |archives|
    ensures forall i :: 0 <= i < k ==> !Raises(archives[i])
    ensures k < |archives| ==> Raises(archives[k])
  {
    if |archives| == 0 || Raises(archives[0]) then 0
    else
      var k := 1 + Reached(archives[1..]);
      assert forall i :: 1 <= i < k ==> archives[i] == archives[1..][i - 1];
      k
  }

  /** The archives whose activity is checked: all of them, or those up to
      and including the first one that raises. */
  function Seen(archives: seq<Archive>): (r: seq<Archive>)
    ensures |r| <= |archives| && r == archives[..|r|]
  {
    var k := Reached(archives);
    if k < |archives| then archives[..k + 1] else archives
  }

  /** The push results `insert_xbrl_dir` records, in archive order. */
  function Results(archives: seq<Archive>): (r: seq<bool>)
    requires forall i :: 0 <= i < |archives| ==> WellFormed(archives[i])
    ensures |r| <= |archives|
  {
    if |archives| == 0 then []
    else
      var a := archives[|archives| - 1];
      assert WellFormed(a);
      Results(archives[..|archives| - 1]) +
      (if Pushes(a) then [AllSucceed(a.build.items, a.build.served)] else [])
  }

  /** The requests `insert_xbrl_dir` makes, in archive order: the activity
      check for each archive, then, for one that is pushed, its push. */
  function DirRequests(p: Primitives, archives: seq<Archive>): seq<Request>
    requires forall i :: 0 <= i < |archives| ==> WellFormed(archives[i])
  {
    if |archives| == 0 then []
    else
      var a := archives[|archives| - 1];
      assert WellFormed(a);
      DirRequests(p, archives[..|archives| - 1]) + [HeadRequest(GetIsActiveHead, HeadKey(p, a))] + PushRequests(p, a)
  }

  /** The requests an archive sends after its activity check: its push when
      it is pushed, nothing otherwise. */
  function PushRequests(p: Primitives, a: Archive): seq<Request>
    requires WellFormed(a)
  {
    var b := a.build;
    if Pushes(a) then
      RequestsVia(b.items, PreRoute) + RequestsVia(b.items, Route) +
      (if AllSucceed(b.items, b.served) then FinalRequests(HeadKey(p, a)) else [])
    else []
  }

  /** An archive that is not pushed (already active, not an XBRL directory,
      or failing to build) sends only its activity check and records no
      result. */
  lemma NotPushedSendsOnlyCheck(p: Primitives, archives: seq<Archive>, a: Archive)
    requires forall i :: 0 <= i < |archives| ==> WellFormed(archives[i])
    requires WellFormed(a) && !Pushes(a)
    ensures forall i :: 0 <= i < |archives + [a]| ==> WellFormed((archives + [a])[i])
    ensures Results(archives + [a]) == Results(archives)
    ensures DirRequests(p, archives + [a]) == DirRequests(p, archives) + [HeadRequest(GetIsActiveHead, HeadKey(p, a))]
  {
    assert (archives + [a])[..|archives|] == archives;
  }

  /** Requests sent for items are never head requests. */
  lemma {:induction false} ItemsSendNoHeadRequest(items: seq<Item>, route: string -> Option<Endpoint>)
    ensures forall r :: r in RequestsVia(items, route) ==> r.ItemRequest?
    decreases |items|
  {
    if |items| > 0 {
      ItemsSendNoHeadRequest(items[..|items| - 1], route);
    }
  }

  /** An archive that is pushed and whose push succeeds. */
  predicate PushedOk(a: Archive)
  {
    Pushes(a) && WellFormed(a) && AllSucceed(a.build.items, a.build.served)
  }

  /** One result per archive that was neither active nor invalid; a true
      result exactly for such an archive whose push succeeded. */
  lemma {:induction false} ResultsSpec(archives: seq<Archive>)
    requires forall i :: 0 <= i < |archives| ==> WellFormed(archives[i])
    ensures true in Results(archives) <==> exists i :: 0 <= i < |archives| && PushedOk(archives[i])
    ensures (forall i :: 0 <= i < |archives| ==> !Pushes(archives[i])) ==> Results(archives) == []
    decreases |archives|
  {
    if |archives| > 0 {
      var init := archives[..|archives| - 1];
      assert forall i :: 0 <= i < |init| ==> init[i] == archives[i];
      ResultsSpec(init);
      if exists i :: 0 <= i < |archives| && PushedOk(archives[i]) {
        var i :| 0 <= i < |archives| && PushedOk(archives[i]);
        if i < |init| {
          assert PushedOk(init[i]);
        }
      }
    }
  }

  /** An archive's own requests activate its head exactly when its push
      succeeds. */
  lemma PushActivates(p: Primitives, a: Archive, key: string)
    requires WellFormed(a)
    ensures HeadRequest(PatchHeadActive, key) in PushRequests(p, a) <==> PushedOk(a) && HeadKey(p, a) == key
  {
    if Pushes(a) {
      ItemsSendNoHeadRequest(a.build.items, PreRoute);
      ItemsSendNoHeadRequest(a.build.items, Route);
    }
  }

  /** A head is activated exactly when an archive with that head key was
      pushed and its push succeeded. */
  lemma {:induction false} ActivationIffPushedOk(p: Primitives, archives: seq<Archive>, key: string)
    requires forall i :: 0 <= i < |archives| ==> WellFormed(archives[i])
    ensures HeadRequest(PatchHeadActive, key) in DirRequests(p, archives) <==>
              exists i :: 0 <= i < |archives| && PushedOk(archives[i]) && HeadKey(p, archives[i]) == key
    decreases |archives|
  {
    if |archives| > 0 {
      var init := archives[..|archives| - 1];
      var a := archives[|archives| - 1];
      assert forall i :: 0 <= i < |init| ==> init[i] == archives[i];
      ActivationIffPushedOk(p, init, key);
      PushActivates(p, a, key);
      if exists i :: 0 <= i < |archives| && PushedOk(archives[i]) && HeadKey(p, archives[i]) == key {
        var i :| 0 <= i < |archives| && PushedOk(archives[i]) && HeadKey(p, archives[i]) == key;
        if i < |init| {
          assert PushedOk(init[i]);
        }
      }
    }
  }

  const AllFailedMessage := "全てのAPI挿入が失敗しました。"

  /** How `insert_xbrl_dir` ends: normally, by raising what constructing
      `ApiInsertionException(AllFailedMessage)` raises, or by an uncaught
      error of an archive's build. */
  datatype DirOutcome =
    | Finished
    | Escalated(error: Result<ApiInsertionException, TypeError>)
    | Propagated(buildError: string)

  /** `insert_xbrl_dir`: skips active heads, records one result per built
      archive, passes over invalid ones, stops at the first uncaught build
      error, and otherwise escalates when no result is true, including when
      none was recorded. */
  method InsertXbrlDir(p: Primitives, archives: seq<Archive>)
    returns (results: seq<bool>, requests: seq<Request>, outcome: DirOutcome)
    requires forall i :: 0 <= i < |archives| ==> WellFormed(archives[i])
    ensures results == Results(Seen(archives))
    ensures requests == DirRequests(p, Seen(archives))
    ensures Reached(archives) < |archives| ==> outcome == Propagated(archives[Reached(archives)].build.error)
    ensures Reached(archives) == |archives| ==> (outcome.Finished? <==> true in results)
    ensures Reached(archives) == |archives| ==> outcome.Escalated? || outcome.Finished?
    ensures outcome.Escalated? ==> outcome.error == NewApiInsertion([AllFailedMessage])
  {
    results := [];
    requests := [];
    var i := 0;
    while i < |archives|
      invariant 0 <= i <= Reached(archives)
      invariant results == Results(archives[..i])
      invariant requests == DirRequests(p, archives[..i])
    {
      assert archives[..i + 1][..i] == archives[..i];
      var a := archives[i];
      var key := p.stringToUuid(BaseName(a.zipPath));
      requests := requests + [HeadRequest(GetIsActiveHead, key)];
      if IsActiveHead(a.head) {
        i := i + 1;
        continue;
      }
      match a.build {
        case NotXbrlDirectory =>
        case BuildRaised(error) =>
          assert i == Reached(archives) && archives[..i + 1] == Seen(archives);
          return results, requests, Propagated(error);
        case Built(items, served, order) =>
          var pushed, sent := InsertApiPush(items, key, served, order);
          results := results + [pushed];
          requests := requests + sent;
      }
      i := i + 1;
    }
    assert archives[..i] == archives == Seen(archives);
    if true !in results {
      return results, requests, Escalated(NewApiInsertion([AllFailedMessage]));
    }
    return results, requests, Finished;
  }

  /** The escalation cannot raise the intended exception: the one-argument
      call raises `TypeError` for the missing `status_code`. */
  lemma EscalationIsTypeError()
    ensures NewApiInsertion([AllFailedMessage]) == Failure(MissingArguments(["status_code"]))
  {
    MessageOnlyCallRaisesTypeError(AllFailedMessage);
  }
}
