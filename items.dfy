/** The item dictionaries the managers collect and the pipeline pushes:
    `{"key": ..., "item": ..., "id": ..., "sort_position": ...}`. */
module Items {
  import opened Common
  import opened TagBase
  import opened IxTag

  /** What an item's `"item"` entry holds. Payloads of the managers outside
      this model (label, calculation, definition, presentation, qualitative,
      schema) are carried as opaque text. */
  datatype Payload =
    | NonFractions(nonFractions: seq<IxNonFraction>)
    | NonNumerics(nonNumerics: seq<IxNonNumeric>)
    | Contexts(contexts: seq<IxContext>)
    | Header(header: IxHeader)
    | FilePathDump(filePath: FilePath)
    | Opaque(text: string)

  /** `sortPosition` is `None` when the manager records the default position
      of `_set_items`; `IxbrlManager` reads that default from its own field. */
  datatype Item = Item(key: string, id: Option<string>, data: Payload, sortPosition: Option<int>)

  /** How many items carry key `k`. */
  function CountKey(items: seq<Item>, k: string): (n: nat)
    ensures n <= |items|
  {
    if |items| == 0 then 0
    else CountKey(items[..|items| - 1], k) + (if items[|items| - 1].key == k then 1 else 0)
  }

  lemma {:induction false} CountKeyAppend(a: seq<Item>, b: seq<Item>, k: string)
    ensures CountKey(a + b, k) == CountKey(a, k) + CountKey(b, k)
    decreases |b|
  {
    if |b| == 0 {
      assert a + b == a;
    } else {
      assert (a + b)[..|a + b| - 1] == a + b[..|b| - 1];
      CountKeyAppend(a, b[..|b| - 1], k);
    }
  }
}
