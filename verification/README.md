# tiny-todo in Dafny

A model of `TodoList` from tiny-todo (`tiny-todo/src/tiny_todo/todo.py`).
`TodoList` is an ordered in-memory list of todo items (`id`, `text`, `done`)
with a `_next_id` counter. It has four operations (`add`, `complete`,
`list_open`, `list_all`). It can also be saved to and loaded from a
`{next_id, items}` document.

- `wrappers.dfy` has `Option` (an absent key, an absent file, Python's `None`) and `Result` (an operation that may raise).
- `text.dfy` has `str.strip()` over the exact set of characters for which Python's `str.isspace()` holds.
- `todo.dfy` has the items, the store invariant `WellFormed`, and the pure functions behind `list_open`, `complete` and the save/load document. It also has the class `TodoList`:
  - `Add` and `Complete` are methods that update the `items` and `nextId` fields in place.
  - `Complete` keeps the source's linear scan with early returns.
  - `ListOpen`, `ListAll` and `ToDocument` are functions that read the object.
  - `Load` builds a fresh object from a document.
- `todo_tests.dfy` replays the scenarios of `tiny-todo/tests/test_todo.py`: ids 1 and 2 in order, a second `complete` returning False, save and reload, and whitespace-only text being rejected.

The store invariant `WellFormed(items, nextId)` says three things. Ids are positive and pairwise distinct. Every id is below the counter. Every text is stripped and non-empty. `Add` and `Complete` preserve it. A document written by `save` reloads to the same state. It still reloads to a well-formed state when its `next_id` key is removed.

`load` does not re-establish the store invariant. It rebuilds items with `TodoItem(**raw)` (todo.py:62) and takes `next_id` from the document (todo.py:63) without checking either. So a hand-edited document can give a store with duplicate ids, unstripped texts or a counter at or below an existing id. The model's `Decode` accepts such documents as the code does. `WellFormed` is proved only for states reached by `add`, `complete` and a save/load round trip.

## Model

| member | source | states |
|---|---|---|
| `Text.SkipSpace` | tiny-todo/src/tiny_todo/todo.py:22 | the scan from the front stops at the first character that is not whitespace, or at the end, and everything it passes is whitespace |
| `Text.TrimEnd` | tiny-todo/src/tiny_todo/todo.py:22 | the scan from the back stops after the last character that is not whitespace, never before the front, and everything it passes is whitespace |
| `Text.Strip` | tiny-todo/src/tiny_todo/todo.py:22 | the stripped text has no whitespace at either end, is a slice of the input, and every character outside that slice is whitespace |
| `Text.StripEmptyIff` | tiny-todo/src/tiny_todo/todo.py:22-23 | stripping gives the empty string exactly when the text is whitespace only, which is when `add` rejects it |
| `Text.StripStripped` | tiny-todo/src/tiny_todo/todo.py:22 | text with no whitespace at either end is kept unchanged |
| `Text.StripIdempotent` | tiny-todo/src/tiny_todo/todo.py:22 | stripping twice equals stripping once |
| `Todo.AddKeepsWellFormed` | tiny-todo/src/tiny_todo/todo.py:25-27 | appending `(next_id, stripped text, False)` and incrementing the counter keeps ids distinct and below the counter |
| `Todo.OpenItems` | tiny-todo/src/tiny_todo/todo.py:41 | an item is in the open list exactly when it is in the list and not done; the result is no longer than the list |
| `Todo.OpenItemsAppend` | tiny-todo/src/tiny_todo/todo.py:41 | the open list of a concatenation is the concatenation of the open lists, so insertion order is kept |
| `Todo.OpenItemsSingle` | tiny-todo/src/tiny_todo/todo.py:41 | a one-item list keeps its item exactly when that item is open |
| `Todo.OpenItemsAround` | tiny-todo/src/tiny_todo/todo.py:41 | the open list is the open items before position k, then item k if it is open, then the open items after k |
| `Todo.FirstIndex` | tiny-todo/src/tiny_todo/todo.py:32-33 | the scan stops at the first position whose id matches, and finds none exactly when no item has that id |
| `Todo.MarkComplete` | tiny-todo/src/tiny_todo/todo.py:30-38 | True exactly when the first item with the id exists and was open. Ids, texts, order and length are unchanged. Only that first item can change, and only to done; when the result is True it is done. Nothing changes when the result is False |
| `Todo.MarkCompleteAt` | tiny-todo/src/tiny_todo/todo.py:33-37 | when the first item with the id is open, exactly that item is set to done and True is returned |
| `Todo.CompleteTwice` | tiny-todo/src/tiny_todo/todo.py:34-35 | a second `complete` with the same id returns False and changes nothing |
| `Todo.CompleteNeverIssued` | tiny-todo/src/tiny_todo/todo.py:32-38 | on a well-formed store, an id below 1 or at or above the counter gives False and no change |
| `Todo.CompleteKeepsWellFormed` | tiny-todo/src/tiny_todo/todo.py:36 | `complete` keeps the store invariant |
| `Todo.CompleteClosesOne` | tiny-todo/src/tiny_todo/todo.py:36-37 | when `complete` returns True, the completed item leaves the open list and the other open items keep their order |
| `Todo.EncodeItems` | tiny-todo/src/tiny_todo/todo.py:50 | every item is written with `id`, `text` and `done` present, one entry per item, in list order |
| `Todo.ParseItems` | tiny-todo/src/tiny_todo/todo.py:62 | fails exactly when some entry lacks `id` or `text`; otherwise gives one item per entry in file order, with `done` defaulting to False |
| `Todo.MaxId` | tiny-todo/src/tiny_todo/todo.py:63 | the result is an id of the list and no id is larger |
| `Todo.DefaultNextId` | tiny-todo/src/tiny_todo/todo.py:63 | 1 for no items; otherwise one more than the largest id, and so above every id |
| `Todo.Decode` | tiny-todo/src/tiny_todo/todo.py:57-63 | A missing file gives no items and counter 1. A missing `items` key reads as no items. Any entry without `id` or `text` gives MissingField. Otherwise the items come back in file order, and the counter is `next_id` if present, else `max(ids, default=0) + 1` |
| `Todo.ParseEncodedItems` | tiny-todo/src/tiny_todo/todo.py:48-51 | parsing the entries that `save` writes gives back the same items in the same order |
| `Todo.ReloadWithoutNextId` | tiny-todo/src/tiny_todo/todo.py:63 | a saved well-formed store whose `next_id` was removed reloads to the same items, with a counter no larger than before and still well-formed, so the next `add` issues an unused id |
| `Todo.TodoList.constructor` | tiny-todo/src/tiny_todo/todo.py:15-18 | the store holds exactly the given items and counter; `TodoList()` is the empty list with counter 1 |
| `Todo.TodoList.Add` | tiny-todo/src/tiny_todo/todo.py:20-28 | Text that is None, empty or whitespace only gives ValueError, and items and counter are unchanged. Otherwise it returns the old counter, appends exactly `(old counter, stripped text, False)` at the end and increments the counter. It keeps the store invariant |
| `Todo.TodoList.Complete` | tiny-todo/src/tiny_todo/todo.py:30-38 | the loop's result and the new list are the ones `MarkComplete` gives for the old list; the counter is unchanged; the store invariant is kept |
| `Todo.TodoList.ListOpen` | tiny-todo/src/tiny_todo/todo.py:40-41 | the result is the order-preserving filter `OpenItems` of the stored items, and an item is returned exactly when it is stored and open |
| `Todo.TodoList.ListAll` | tiny-todo/src/tiny_todo/todo.py:43-44 | a snapshot of every stored item, same length, same order |
| `Todo.TodoList.ToDocument` | tiny-todo/src/tiny_todo/todo.py:46-51 | the saved document always carries `next_id`, and decoding it gives exactly the same items in the same order and the same counter |
| `Todo.TodoList.Load` | tiny-todo/src/tiny_todo/todo.py:55-64 | returns a fresh store holding what `Decode` gives for the file (the empty store with counter 1 when the file is absent), or raises the error `Decode` reports |

## Left out

- File-system effects of `save` and `load` are not modelled: `Path`, `mkdir(parents=True)`, `write_text`, `read_text` and `exists`. The file's existence is an `Option<Document>`, and what `save` writes is the `Document` value from `ToDocument`.
- JSON text encoding and decoding (`json.dumps(indent=2)`, `json.loads`) are not modelled, nor are malformed JSON and the resulting parse error. Only the `{next_id, items}` structure they carry is modelled.
- Values of the wrong type in a document are not modelled, such as a string `id` or `"items": null`. Extra keys in an item, which make `TodoItem(**raw)` raise, are not modelled either. Keys are either present with a value of the right type or absent.
- Aliasing is not modelled. `list_all` returns a shallow copy that shares the `TodoItem` objects, so a caller could mutate stored items through it. Items are values here, so the returned sequences are snapshots.
- Non-string arguments to `add` are not modelled. The argument is a string or None.
- Todo.TodoList.ListAll: its contract only says the result equals the stored sequence element by element, which is all `list(self._items)` promises.
