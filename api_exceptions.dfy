/** app/api/ix/exceptions.py: the two exceptions of the ingestion pipeline.
    Python binds a constructor call's positional arguments to the declared
    parameters; the binding is modelled so that a call with too few
    arguments is the `TypeError` Python raises instead. Arguments are given
    as the text `str()` renders for them. */
module ApiExceptions {
  import opened Common

  const NotXbrlDirectoryDefault := "指定されたディレクトリはXBRL形式ではありません。"
  const ApiInsertionDefault := "APIへのデータ挿入中にエラーが発生しました。"

  /** `NotXbrlDirectoryException`: only a message. */
  datatype NotXbrlDirectoryException = NotXbrlDirectoryException(message: string)

  /** The constructor with its default message. */
  function NewNotXbrlDirectory(message: Option<string>): (e: NotXbrlDirectoryException)
    ensures message.Some? ==> e.message == message.value
    ensures message.None? ==> e.message == NotXbrlDirectoryDefault
  {
    NotXbrlDirectoryException(message.GetOr(NotXbrlDirectoryDefault))
  }

  /** `ApiInsertionException`: the endpoint and status code as given, and the
      composed message. */
  datatype ApiInsertionException = ApiInsertionException(endpoint: string, statusCode: string, message: string)

  /** Python's `TypeError` for a call that leaves required parameters
      unbound (listed by name) or passes more arguments than declared. */
  datatype TypeError = MissingArguments(names: seq<string>) | TooManyArguments(given: nat)

  const ApiInsertionParameters: seq<string> := ["endpoint", "status_code", "message"]

  function ComposeMessage(message: string, endpoint: string, statusCode: string): string
  {
    message + " エンドポイント: " + endpoint + ", ステータスコード: " + statusCode
  }

  /** `ApiInsertionException(*args)`: `endpoint` and `status_code` are
      required, `message` has a default. */
  function NewApiInsertion(args: seq<string>): (r: Result<ApiInsertionException, TypeError>)
    ensures r.Success? <==> 2 <= |args| <= 3
    ensures |args| < 2 ==> r == Failure(MissingArguments(ApiInsertionParameters[|args|..2]))
    ensures |args| > 3 ==> r == Failure(TooManyArguments(|args|))
    ensures r.Success? ==> r.value.endpoint == args[0] && r.value.statusCode == args[1]
  {
    if |args| < 2 then Failure(MissingArguments(ApiInsertionParameters[|args|..2]))
    else if |args| > 3 then Failure(TooManyArguments(|args|))
    else
      var message := if |args| == 3 then args[2] else ApiInsertionDefault;
      Success(ApiInsertionException(args[0], args[1], ComposeMessage(message, args[0], args[1])))
  }

  /** The message is the given message (or the default), then the
      endpoint, then the status code, with nothing else in between: it
      starts with the first two and ends with the last. */
  lemma ApiInsertionMessage(args: seq<string>)
    requires 2 <= |args| <= 3
    ensures var m := if |args| == 3 then args[2] else ApiInsertionDefault;
            var e := NewApiInsertion(args).value;
            e.message == m + " エンドポイント: " + args[0] + ", ステータスコード: " + args[1] &&
            StartsWith(e.message, m + " エンドポイント: " + args[0]) && EndsWith(e.message, ", ステータスコード: " + args[1])
  {
    var m := if |args| == 3 then args[2] else ApiInsertionDefault;
    var e := NewApiInsertion(args).value;
    var head := m + " エンドポイント: " + args[0];
    var tail := ", ステータスコード: " + args[1];
    assert e.message == head + tail;
    assert e.message[..|head|] == head;
    assert e.message[|e.message| - |tail|..] == tail;
  }

  /** A call with the message alone binds it to `endpoint`, leaves
      `status_code` unbound and so raises `TypeError`, not the exception. */
  lemma MessageOnlyCallRaisesTypeError(message: string)
    ensures NewApiInsertion([message]) == Failure(MissingArguments(["status_code"]))
  {
    assert ApiInsertionParameters[1..2] == ["status_code"];
  }
}
