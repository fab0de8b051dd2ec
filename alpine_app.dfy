/**
 * The reactive client (public/alpine_client.js): the `groceryListApp`
 * component with its three fields `loading`, `error` and `items`, driven by
 * image selection and the outcome of the transcription reply, and its
 * storage under the key `groceryList`.
 */
module AlpineApp {
  import opened Util
  import opened Text
  import opened Grocery

  const ServerErrorText := "Server responded with an error."
  const ReadFailedText := "An error occurred while reading the image."

  /**
   * What `localStorage.groceryList` holds once parsed: a name-keyed object
   * of entries (as the plain-DOM client writes it) or an array of items (as
   * this component's `saveState(this.items)` writes it).
   */
  datatype Stored = Table(entries: map<string, Entry>) | List(items: seq<Item>)

  /**
   * `Object.keys(array).map(...)` over a stored array: the keys of an array
   * are its indices as decimal strings, so item `i` is named "i" and keeps
   * the category, emoji and (possibly absent) checked field of element `i`.
   */
  function IndexedItems(xs: seq<Item>): (items: seq<Item>)
    ensures |items| == |xs|
    ensures forall i :: 0 <= i < |xs| ==>
      && items[i].name == Decimal(i)
      && items[i].category == xs[i].category
      && items[i].emoji == xs[i].emoji
      && items[i].checked == xs[i].checked
  {
    seq(|xs|, i requires 0 <= i < |xs| => Item(Decimal(i), xs[i].category, xs[i].emoji, xs[i].checked))
  }

  /**
   * The array `saveState` writes does not come back through `init`: each
   * item is renamed by its index, so a list whose first item is not named
   * "0" is not restored.
   */
  lemma SavedListNotRestored(xs: seq<Item>)
    requires |xs| > 0 && xs[0].name != "0"
    ensures IndexedItems(xs) != xs
    ensures IndexedItems(xs)[0].name == "0"
  {
    assert Decimal(0) == "0";
  }

  class GroceryListApp {
    var loading: bool
    var error: string
    var items: seq<Item>
    /** `localStorage.groceryList`: absent, or the parsed stored value. */
    var stored: Option<Stored>
    /** Every value assigned to `loading`, in order. */
    ghost var loadingLog: seq<bool>
    /** Every value assigned to `error`, in order. */
    ghost var errorLog: seq<string>

    /** The component's initial data over whatever storage already holds. */
    constructor (storage: Option<Stored>)
      ensures !loading && error == "" && items == [] && stored == storage
      ensures loadingLog == [] && errorLog == []
    {
      loading, error, items, stored := false, "", [], storage;
      loadingLog, errorLog := [], [];
    }

    /** `loadState`: the stored value, or an empty object when nothing is stored. */
    function LoadState(): (v: Stored)
      reads this
      ensures stored.None? ==> v == Table(map[])
      ensures stored.Some? ==> v == stored.value
    {
      if stored.Some? then stored.value else Table(map[])
    }

    /** `saveState(items)`: stores the item array itself. */
    method SaveState(xs: seq<Item>)
      modifies this`stored
      ensures stored == Some(List(xs)) && LoadState() == List(xs)
    {
      stored := Some(List(xs));
    }

    method SetLoading(b: bool)
      modifies this`loading, this`loadingLog
      ensures loading == b && loadingLog == old(loadingLog) + [b]
    {
      loading := b;
      loadingLog := loadingLog + [b];
    }

    method SetError(message: string)
      modifies this`error, this`errorLog
      ensures error == message && errorLog == old(errorLog) + [message]
    {
      error := message;
      errorLog := errorLog + [message];
    }

    /**
     * `init`: `items` becomes one item per key of the stored value, in the
     * order `keys` enumerates an object's keys. A stored object yields its
     * entries named by key; a stored array yields its elements named by
     * index. Nothing else changes.
     */
    method Init(keys: seq<string>)
      requires LoadState().Table? ==> IsKeyOrder(keys, LoadState().entries)
      modifies this`items
      ensures LoadState().Table? ==> items == Rebuild(LoadState().entries, keys)
      ensures LoadState().List? ==> items == IndexedItems(LoadState().items)
    {
      var state := LoadState();
      match state
      case Table(entries) =>
        items := Rebuild(entries, keys);
      case List(xs) =>
        items := IndexedItems(xs);
    }

    /**
     * `transcribeImage` from the request on: `loading` is set on entry and
     * cleared on every path. A non-OK reply or a failed parse sets `error`
     * to the exception's message and leaves `items` and storage alone; a
     * parsed item array replaces `items` and is saved as it is.
     */
    method TranscribeImage(reply: Reply)
      modifies this`loading, this`loadingLog, this`error, this`errorLog, this`items, this`stored
      ensures loadingLog == old(loadingLog) + [true, false] && !loading
      ensures reply.NotOk? ==>
        && error == ServerErrorText && errorLog == old(errorLog) + [ServerErrorText]
        && items == old(items) && stored == old(stored)
      ensures reply.Ok? && reply.parsed.Thrown? ==>
        && error == reply.parsed.message && errorLog == old(errorLog) + [reply.parsed.message]
        && items == old(items) && stored == old(stored)
      ensures reply.Ok? && reply.parsed.Items? ==>
        && items == reply.parsed.items && stored == Some(List(reply.parsed.items))
        && error == old(error) && errorLog == old(errorLog)
    {
      SetLoading(true);
      match reply
      case NotOk =>
        SetLoading(false);
        SetError(ServerErrorText);
      case Ok(_, Thrown(message)) =>
        SetLoading(false);
        SetError(message);
      case Ok(_, Items(parsed)) =>
        items := parsed;
        SaveState(items);
        SetLoading(false);
    }

    /**
     * `handleImageChange`: `error` is cleared before anything else; then a
     * missing file changes nothing more, a read error clears `loading` and
     * reports it, and an image read goes through `transcribeImage`.
     */
    method HandleImageChange(read: ImageRead, reply: Reply)
      modifies this`loading, this`loadingLog, this`error, this`errorLog, this`items, this`stored
      ensures |errorLog| > |old(errorLog)| && errorLog[|old(errorLog)|] == ""
      ensures read.NoFile? ==>
        && error == "" && errorLog == old(errorLog) + [""]
        && loading == old(loading) && loadingLog == old(loadingLog)
        && items == old(items) && stored == old(stored)
      ensures read.ReadError? ==>
        && error == ReadFailedText && errorLog == old(errorLog) + ["", ReadFailedText]
        && !loading && items == old(items) && stored == old(stored)
      ensures read.DataUrl? ==> loadingLog == old(loadingLog) + [true, false] && !loading
      ensures read.DataUrl? && reply.NotOk? ==> error == ServerErrorText && items == old(items) && stored == old(stored)
      ensures read.DataUrl? && reply.Ok? && reply.parsed.Thrown? ==>
        error == reply.parsed.message && items == old(items) && stored == old(stored)
      ensures read.DataUrl? && reply.Ok? && reply.parsed.Items? ==>
        error == "" && items == reply.parsed.items && stored == Some(List(items))
    {
      SetError("");
      match read
      case NoFile =>
      case ReadError =>
        SetLoading(false);
        SetError(ReadFailedText);
      case DataUrl =>
        TranscribeImage(reply);
    }
  }
}
