# grocerease browser core in Dafny

grocerease photographs a handwritten grocery list, has a server transcribe it
into items (`name`, `category`, `emoji`), and shows the result as a checklist
in the browser. This project models the browser side of that system:

- **The plain-DOM client** (`public/client.js`), module `Checklist`.
  - After a transcription it builds the checklist state: a table from item name to `{checked, category, name, emoji}`.
  - It persists that table under the storage key `groceryList`.
  - It renders a plan: one category header per distinct category, placed before that category's first item, and one checkbox per item.
  - Its checkbox handler updates the shared table in place and saves it again.
  - On page load it rebuilds the item list from storage.
- **The reactive client** (`public/alpine_client.js`), module `AlpineApp`.
  - The `groceryListApp` component has three fields, `loading`, `error` and `items`.
  - These are driven by image selection and by the transcription reply.
  - It stores the item array itself.
- **The service worker** (`public/sw.js`), module `OfflineCache`.
  - The offline cache has a versioned name.
  - Install precaches a fixed set of URLs.
  - Fetch is cache-first, and stores a network reply only when its status is 200 and its type is `basic`.
  - Activate deletes every `offline-` cache of another version.

Shared pieces:

- `Text`: capitalisation, prefixes and decimal numerals.
- `Util`: `Option`, distinctness, and key enumeration order.
- `Grocery`: items, stored entries, the server reply, and the rebuild of items from stored entries.

Things the browser supplies are inputs to the operations:

- the server's reply;
- whether the file reader fails;
- the network (a function from request to reply);
- the order `Object.keys` enumerates a stored object.

The two stateful pieces are classes:

- `Checklist.Page`: storage, the display area, and the table shared by the checkbox handlers.
- `OfflineCache.CacheStorage`: cache names in creation order, and per cache a map from URL to response.

The Alpine component is the class `AlpineApp.GroceryListApp`.

## Model

| member | source | states |
|---|---|---|
| Text.Capitalize | public/client.js:118-120 | the first character upper-cased, every later one lower-cased, same length, empty stays empty |
| Text.Decimal | public/sw.js:3 | a non-empty numeral of digits only, with a leading zero only for zero, that denotes `n` when read back digit by digit (`Text.NumeralValue`) |
| Text.DecimalInjective | public/sw.js:3 | different numbers have different numerals |
| Grocery.Rebuild | public/client.js:174-180 | exactly one item per stored key, in key order: name = key, with category, emoji and checked copied; the names are distinct and are exactly the stored keys |
| Checklist.BuildState | public/client.js:65-74 | the table's keys are exactly the parsed items' names, and each name maps to an unchecked entry for the last item with that name |
| Checklist.BuiltStateUnique | public/client.js:65-74 | the parsed items determine the built table completely |
| Checklist.Caption | public/client.js:118-162 | a header (built at lines 118-122) reads as its capitalised category, then a space, then the emoji; a checkbox's label (built at lines 158-162) is its capitalised item name |
| Checklist.PlanCheckboxes | public/client.js:139-143 | the plan has exactly one checkbox per item, in item order; each is ticked iff the saved entry for its name is checked, and unticked when the name has no entry |
| Checklist.PlanHeaders | public/client.js:114-126 | the plan's headers cover exactly the items' categories, none twice, so their number is the number of distinct categories |
| Checklist.PlanElementsFromItems | public/client.js:114-166 | every planned element is an item's checkbox, or the header of a category that item is the first of |
| Checklist.RenderPlan | public/client.js:114-166 | the loop, which tracks the categories already headed, yields exactly the plan |
| Checklist.PlanAsWrittenCheckboxes | public/client.js:114-143 | the plan as the source computes it (`Checklist.PlanAsWritten`, whose header test looks up the id among all elements shown so far) has exactly the checkboxes of the intended plan, one per item in item order; only headers can differ |
| Checklist.PlanAsWrittenAgrees | public/client.js:116 | the header lookup as written agrees with the intended plan whenever no item is named like a header id |
| Checklist.HeaderSuppressedByItemName | public/client.js:116 | for an item named "category-fruit" followed by a fruit item, the lookup as written shows one header where two categories need two |
| Checklist.Toggled | public/client.js:148-153 | the toggled entry takes the new checked value and emoji and keeps its category and name; every other entry and the key set are unchanged |
| Checklist.Page.constructor | public/client.js:173-174 | a fresh page shows nothing and starts from whatever storage holds |
| Checklist.Page.LoadState | public/client.js:88-91 | the empty table when nothing is stored, else the stored table |
| Checklist.Page.SaveState | public/client.js:94-96 | a later load yields exactly the saved table |
| Checklist.Page.Render | public/client.js:106-111 | shows the plan for the items over the loaded table; the checkboxes share that table, which is saved back unchanged (page invariant kept) |
| Checklist.Page.TranscribeImage | public/client.js:43-82 | a non-OK reply throws with storage untouched; an OK reply removes the stored list first; a truthy `error` is displayed and nothing is saved; a parse failure throws; otherwise the built table is saved and rendered |
| Checklist.Page.SelectImage | public/client.js:1-30 | the display is cleared; a read error or a throw from the transcription shows its fixed message; otherwise the transcription's outcome is shown |
| Checklist.Page.Toggle | public/client.js:148-155 | flips checkbox `k` only; the shared table becomes `Toggled` at that name with the checkbox's emoji; the whole table is saved (page invariant kept) |
| Checklist.Page.PageLoad | public/client.js:173-184 | with an empty stored table nothing changes; otherwise the rebuilt items are rendered over the stored table |
| AlpineApp.IndexedItems | public/alpine_client.js:10-15 | `Object.keys` over a stored array: item `i` is named by the numeral of `i`, with its other fields copied |
| AlpineApp.SavedListNotRestored | public/alpine_client.js:10-16 | a saved array whose first item is not named "0" is not what `init` rebuilds |
| AlpineApp.GroceryListApp.constructor | public/alpine_client.js:3-5 | not loading, no error, no items |
| AlpineApp.GroceryListApp.LoadState | public/alpine_client.js:72-75 | an empty object when nothing is stored, else the stored value |
| AlpineApp.GroceryListApp.SaveState | public/alpine_client.js:78-80 | storage holds the item array itself |
| AlpineApp.GroceryListApp.Init | public/alpine_client.js:7-17 | `items` holds one entry per stored key: a stored table rebuilt by name, a stored array by index; nothing else changes |
| AlpineApp.GroceryListApp.TranscribeImage | public/alpine_client.js:44-69 | `loading` is set, then cleared on every path; a non-OK reply sets the server error and leaves items and storage alone; a parse failure sets its message and leaves items and storage alone; success replaces `items` and saves that same array |
| AlpineApp.GroceryListApp.HandleImageChange | public/alpine_client.js:19-41 | `error` is cleared before anything else; no file changes nothing more; a read error clears `loading` and sets the read message; an image goes through `transcribeImage` |
| OfflineCache.CurrentCacheName | public/sw.js:1-4 | "offline-v2", which starts with the `offline-` prefix |
| OfflineCache.AddAll | public/sw.js:19 | succeeds iff every URL's GET reply is accepted (status 200-299 other than the partial 206); it then maps exactly those URLs to their replies |
| OfflineCache.StaleCaches | public/sw.js:56-58 | exactly the names with the `offline-` prefix other than the current one |
| OfflineCache.Survivors | public/sw.js:54-62 | exactly the names that are not stale, kept in their order (a subsequence of the names) |
| OfflineCache.ActivateIdempotent | public/sw.js:54-62 | after an activation nothing is stale, so a second one deletes nothing; the current cache and every unprefixed cache survive |
| OfflineCache.FirstMatch | public/sw.js:26 | no match iff no cache holds the URL; a match is the response stored for the URL in the first cache, in creation order, that holds it |
| OfflineCache.CacheStorage.Match | public/sw.js:26 | non-GET requests never match; a match is a stored response for the URL; no match means no cache holds the URL |
| OfflineCache.CacheStorage.Open | public/sw.js:18 | opening adds an empty cache under a new name at the end of the creation order and changes nothing else |
| OfflineCache.CacheStorage.Store | public/sw.js:42 | an existing cache's contents are replaced; names and every other cache are unchanged |
| OfflineCache.CacheStorage.Precache | public/sw.js:18-20 | the named cache exists afterwards; it gains every URL with its reply iff every GET fetch is accepted, and nothing otherwise; every URL is fetched |
| OfflineCache.CacheStorage.Put | public/sw.js:40-43 | opens the cache and stores the response under the request URL for GET only; a GET request no cache answered before is answered by that response afterwards |
| OfflineCache.CacheStorage.Install | public/sw.js:16-22 | the current cache exists afterwards; it gains every offline URL with its reply iff every fetch is accepted, and nothing otherwise |
| OfflineCache.CacheStorage.HandleFetch | public/sw.js:24-49 | a hit returns the cached response with no fetch and no change; a miss returns the network's reply; a 200 `basic` GET reply is stored under the URL in the current cache (and is found next time); anything else leaves the caches unchanged |
| OfflineCache.CacheStorage.Delete | public/sw.js:60 | the named cache and its name are gone; every other cache is unchanged |
| OfflineCache.CacheStorage.Activate | public/sw.js:51-65 | exactly the stale caches are deleted; the rest keep their contents and their order |

## Left out

- `server.js` is not part of this model. The Express routes, the authentication middleware and the OpenAI calls are server I/O. The clients see only their reply.
- `index.html` and the Alpine template that renders `items` are not part of this model.
- DOM presentation is left out: class names, styles, the spinner, console logging and the return value `data.text` of `transcribeImage`. The display area is modelled as blank, a message, or the render plan.
- FileReader, `fetch` and promise sequencing are not modelled. The file read's outcome and the server's reply are inputs, and each handler runs to completion in one step. The base64 split of the data URL is not modelled.
- The order in which `Object.keys` lists a stored object's properties is an input. JavaScript lists integer-like keys first, which is not modelled.
- Case mapping is ASCII only. Unicode upper- and lower-casing are not modelled.
- Stored values other than a table or an array are not modelled. These are `null`, numbers, and text that is not JSON. A stored value that is an empty string counts as nothing stored.
- Checklist.BuildState: the source's table is a plain JavaScript object; the model uses a map. An item named `__proto__` therefore gets a key here, while the source's assignment hits the prototype setter and stores nothing. The same holds for the tables that Checklist.Page.TranscribeImage and Checklist.Page.SelectImage save, and for a toggle of such an item.
- Checklist.Page.Render: requires every item name to be a stored key. Both callers guarantee this. A toggle on a name without an entry would write a partial `{checked, emoji}` entry, which is not modelled.
- Checklist.Page.Render: the page shows the intended plan (`Checklist.Plan`), not the header lookup as written at public/client.js:116. The two agree whenever no item is named like a header id (`Checklist.PlanAsWrittenAgrees`). Otherwise the source leaves out a header that the page shows here (see Findings).
- Checklist.Page.TranscribeImage, Checklist.Page.SelectImage and Checklist.Page.PageLoad display through `Checklist.Page.Render`, so they also show the intended plan.
- Checklist.Page.TranscribeImage: a parsed `items` value that is not an array makes `forEach` throw. This counts as a parse failure (`Thrown`).
- AlpineApp.GroceryListApp.Init: no load-after-save round trip is claimed. `saveState` stores the item array, while `init` reads the stored value by key, so a reload renames items by index (`AlpineApp.SavedListNotRestored`).
- AlpineApp.GroceryListApp.TranscribeImage: the reply's `error` field is ignored, as the source ignores it. An error reply fails on reading `data.text` and shows that exception's message.
- AlpineApp.GroceryListApp.TranscribeImage: tool-call arguments that parse but have no `items` field are not modelled. The source then sets `items` to `undefined` without throwing and saves it, so storage holds the text "undefined" and the next `init` throws in `JSON.parse`. The reply model has only a parsed item array or a thrown exception.
- AlpineApp.GroceryListApp.HandleImageChange: the outer `catch` around `transcribeImage` is left out. It is unreachable, because `transcribeImage` catches every exception itself.
- OfflineCache.CacheStorage.HandleFetch: the fire-and-forget `cache.put` is modelled as an immediate update. A rejected fetch is passed through as a network error.
- OfflineCache.CacheStorage.Match: matching compares request URLs only. `Vary` headers and match options are not modelled, and neither is relative-URL resolution.
- OfflineCache.AddAll: the rejection of duplicate requests is not modelled. `OFFLINE_URLS` has no duplicates.
- Response bodies, opaque responses and the worker lifecycle (`waitUntil`) are not modelled.

## Findings

| source | as written | input that shows it | evidently intended | confidence | as-written member | corrected member |
|---|---|---|---|---|---|---|
| public/client.js:116 | the header test `document.getElementById("category-" + category)` also finds checkboxes, whose id is the item name | items `category-fruit` (category `snacks`) then `apple` (category `fruit`): no `fruit` header is shown | one header per distinct category, before its first item | not executed | Checklist.PlanAsWritten, Checklist.HeaderSuppressedByItemName | Checklist.Plan, Checklist.RenderPlan |
