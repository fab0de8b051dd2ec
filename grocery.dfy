/**
 * The data both browser clients share: grocery items, the per-name entries
 * the checklist persists under the storage key `groceryList`, the server's
 * reply to `POST /transcribe` as the clients see it, and the reconstruction
 * of an item list from the stored entries.
 */
module Grocery {
  import opened Util

  /**
   * One grocery item. Items parsed from the server's tool call carry no
   * `checked` field (None); items rebuilt from storage copy it.
   */
  datatype Item = Item(name: string, category: string, emoji: string, checked: Option<bool>)

  /** The value stored under an item's name in the persisted checklist. */
  datatype Entry = Entry(checked: bool, category: string, name: string, emoji: string)

  /**
   * The outcome of `JSON.parse(data.text.tool_calls[0].function.arguments).items`:
   * a well-formed item array, or the exception one of those steps throws
   * (no `text`, no tool call, arguments that are not JSON), with its message.
   */
  datatype Parsed = Items(items: seq<Item>) | Thrown(message: string)

  /**
   * The reply to `POST /transcribe`. `NotOk` is a response whose `ok` is
   * false. For an OK response, `error` is the body's `error` field, with ""
   * standing for an absent or empty one (both are falsy), and `parsed` is
   * what reading the tool call yields. A body that is not JSON at all is
   * `Ok("", Thrown(m))`: both clients treat the two alike.
   *
   * A `fetch` that rejects (a network error) is encoded per client. The
   * checklist page throws before touching storage, exactly as for a
   * response that is not ok, so there it is `NotOk`. The Alpine app shows
   * the exception's message, so there it is `Ok("", Thrown(m))` with `m`
   * that message.
   */
  datatype Reply = NotOk | Ok(error: string, parsed: Parsed)

  /** What selecting a file leads to: no file, a FileReader error, or a data URL. */
  datatype ImageRead = NoFile | ReadError | DataUrl

  /**
   * `Object.keys(savedState).map(key => ({name: key, category, checked, emoji}))`,
   * with `keys` the enumeration order of the stored object's properties:
   * exactly one item per stored key, named by that key, its category, emoji
   * and checked state copied from the stored entry.
   */
  function Rebuild(m: map<string, Entry>, keys: seq<string>): (items: seq<Item>)
    requires IsKeyOrder(keys, m)
    ensures |items| == |keys| == |m|
    ensures forall i :: 0 <= i < |items| ==>
      && items[i].name == keys[i]
      && items[i].category == m[keys[i]].category
      && items[i].emoji == m[keys[i]].emoji
      && items[i].checked == Some(m[keys[i]].checked)
    ensures m.Keys == set i | 0 <= i < |items| :: items[i].name
    ensures forall i, j :: 0 <= i < j < |items| ==> items[i].name != items[j].name
  {
    KeyOrderLength(keys, m);
    seq(|keys|, i requires 0 <= i < |keys| =>
      Item(keys[i], m[keys[i]].category, m[keys[i]].emoji, Some(m[keys[i]].checked)))
  }
}
