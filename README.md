# Todo-list component: state and reducer

This project models the state reducer of a browser todo-list component written
in Rust on the yew framework (`src/app.rs`). The component holds an ordered
list of entries and two text buffers: `value`, the new-entry input field, and
`editValue`, the inline-edit input field. Each entry has a description, a
`completed` flag and an `editing` flag. There are eight messages. `Add`,
`Update(text)`, `UpdateEdit(text)` and `Nope` touch no particular entry.
`Toggle(i)`, `ToggleEdit(i)`, `Edit(i)` and `Remove(i)` address entry `i` by
its position. After every message the component writes the entry list to local
storage and asks for a re-render. The view sends those positions. An index past
the end of the list makes the Rust code panic.

Three modules:

- `Todo` (`todo.dfy`) holds the values. These are the datatypes `Entry`, `Msg`
  and `AppState`. It also holds the pure functions for the four per-index
  helpers of `State` (`ToggleAt`, `ToggleEditAt`, `CompleteEditAt`,
  `RemoveAt`), the startup state `Init` and the reducer `Step`. `Step` returns
  `None` where the source panics. `Run` applies a session of messages one after
  another.
- `TodoProperties` (`properties.dfy`) holds the lemmas. There is one per
  message for what it changes and what it leaves alone. The others cover whole
  sessions: how the list length changes, composition of sessions, the
  edit-mode scenarios and the add/toggle/remove scenario.
- `App` (`app.dfy`) models the objects the source changes in place. Class
  `State` has the fields `entries`, `value` and `editValue`, plus the four
  helper methods. Class `Model` owns one `State` and a field `stored`. `stored`
  is what the browser storage would hand back on the next start. Its
  constructor `Create` is `create`. Its method `Update` is `update`: the method
  is proved to produce exactly `Step`'s result, to write the new entry list
  into `stored`, and to return `true`. `Model.Valid()` states that a restart
  would restore the entries the component holds now.

Storage is keyed by the constant `"yew.todomvc.self"` (`src/app.rs:7`). The
model has a single store, so the key does not appear. The JSON encoding is
abstracted away: `stored` is the entry list itself, and `None` stands for
"missing or not parseable".

The out-of-range panic is modelled in two ways. In `Step` it is the `None`
result. On the class methods it is a `requires` that the index is in range,
because after a panic there is no state left to reason about.

## Model

| member | source | states |
|---|---|---|
| Todo.Init | src/app.rs:44-57 | startup yields the restored list when there is one and an empty list otherwise; both buffers are empty |
| Todo.ToggleAt | src/app.rs:184-191 | the length is kept; entry `idx` has its `completed` flag flipped, with its description and `editing` flag kept; every other entry is unchanged |
| Todo.ToggleEditAt | src/app.rs:193-200 | the length is kept; entry `idx` has its `editing` flag flipped, with its description and `completed` flag kept; every other entry is unchanged |
| Todo.CompleteEditAt | src/app.rs:202-210 | the length is kept; entry `idx` gets the given description and a flipped `editing` flag, with `completed` kept; every other entry is unchanged |
| Todo.RemoveAt | src/app.rs:212-223 | the length drops by one; earlier entries stay in place; later entries move down one position unchanged; the multiset of entries loses exactly entry `idx` |
| Todo.Step | src/app.rs:65-103 | the reducer panics (`None`) exactly when an index-taking message is out of range; otherwise the list length grows by 1 on `Add`, shrinks by 1 on `Remove`, and is kept on every other message |
| TodoProperties.AddAppendsEntry | src/app.rs:67-75 | `Add` never panics; it appends `Entry(value, false, false)` after the unchanged earlier entries, even when `value` is empty; it clears `value` and keeps `editValue` |
| TodoProperties.ToggleFlipsOnlyCompleted | src/app.rs:96-98 | `Toggle(i)` flips only `entries[i].completed`; all other entries, the length and both buffers are unchanged |
| TodoProperties.ToggleTwiceRestores | src/app.rs:184-191 | two `Toggle(i)` in a row give back the original state |
| TodoProperties.RemoveDeletesEntry | src/app.rs:89-91 | `Remove(i)` yields `entries[..i] + entries[i+1..]`; the length drops by 1; later entries shift down one position; the buffers are untouched |
| TodoProperties.ToggleEditSeedsBuffer | src/app.rs:92-95 | `ToggleEdit(i)` sets `editValue` to the description of entry `i` as it was before, flips only that entry's `editing` flag, and keeps every other entry and `value` |
| TodoProperties.EditCommitsBuffer | src/app.rs:76-80 | `Edit(i)` writes the old `editValue` into entry `i`, flips that entry's `editing` flag, clears `editValue`, and keeps every other entry and `value` |
| TodoProperties.EditOutsideEditModeEntersIt | src/app.rs:202-210 | since `Edit` flips rather than clears the flag, an `Edit(i)` on an entry that is not being edited puts it into edit mode |
| TodoProperties.BufferMessagesKeepEntries | src/app.rs:81-99 | `Update(t)` sets only `value := t`; `UpdateEdit(t)` sets only `editValue := t`; `Nope` leaves the whole state as it was |
| TodoProperties.RunConcat | src/app.rs:65-103 | running a session `a + b` equals running `a` and then `b` from the state `a` leaves; a panic in `a` ends the session |
| TodoProperties.RunLength | src/app.rs:65-103 | over any session that does not panic, the final list length is the initial one plus the number of `Add` minus the number of `Remove` |
| TodoProperties.BufferSessionKeepsEntries | src/app.rs:81-99 | a session of `Update`, `UpdateEdit` and `Nope` messages never panics and leaves the entry list unchanged |
| TodoProperties.ToggleEditTwiceDiscardsEdit | src/app.rs:92-95 | `ToggleEdit(i)`, `UpdateEdit(t)`, `ToggleEdit(i)` drops the typed text: the entries are as before, and `editValue` holds the unchanged description |
| TodoProperties.EditSessionCommitsText | src/app.rs:76-95 | `ToggleEdit(i)`, `UpdateEdit(t)`, `Edit(i)` replaces only the description of entry `i` with `t`; both its flags end as they started; `editValue` ends empty |
| TodoProperties.TwoEntriesCanBeEditing | src/app.rs:193-200 | nothing limits edit mode to one entry: from an empty start, two `Add` and two `ToggleEdit` leave two entries in edit mode |
| TodoProperties.AddToggleRemoveSession | src/app.rs:44-103 | from an empty start, typing and adding "A" and "B", toggling entry 0 and removing entry 1 leave exactly one entry: "A", completed, not editing, with both buffers empty |
| App.State.constructor | src/app.rs:53-57 | the new state holds the given entries and buffers |
| App.State.Toggle | src/app.rs:184-191 | the entries become `ToggleAt` of the old entries; both buffers are unchanged |
| App.State.ToggleEdit | src/app.rs:193-200 | the entries become `ToggleEditAt` of the old entries; both buffers are unchanged |
| App.State.CompleteEdit | src/app.rs:202-210 | the entries become `CompleteEditAt` of the old entries and the given text; both buffers are unchanged |
| App.State.Remove | src/app.rs:212-223 | the entries become `RemoveAt` of the old entries; both buffers are unchanged |
| App.Model.Create | src/app.rs:44-57 | the component starts in `Init(restored)` with a fresh `State`, and a restart would find the same entries |
| App.Model.Update | src/app.rs:65-103 | the new state is exactly what `Step` gives for the old state and the message; the storage then holds the new entry list; the method returns `true` for every message, `Nope` and buffer-only messages included |
| App.AddToggleRemoveScenario | src/app.rs:44-103 | the add/toggle/remove session run on the objects ends with the single entry "A", completed; a second component created on the storage it leaves holds the same list |

## Left out

- View rendering (`view`, `view_input`, `view_entry`, `view_entry_edit_input`, `src/app.rs:109-180`): this is markup, CSS classes and framework callbacks. The key-to-message mapping ("Enter" gives `Add` or `Edit(idx)`, any other key gives `Nope`) is not modelled either; every message sequence is allowed as input.
- The storage service and the JSON (de)serialisation: this is library code that is not visible. `Model.stored` holds the entry list as it would be restored, so an encode/decode round trip is taken for granted and not proved.
- The `expect` on storage availability (`src/app.rs:45`): this is an environment failure at startup, not logic.
- `ComponentLink`, `change` (which always returns `false`) and the `println!` debug output inside `update`: these have no effect on the state.
- `src/lib.rs`: this is only the wasm entry point that starts the component.
- App.State.Toggle, App.State.ToggleEdit, App.State.CompleteEdit, App.State.Remove, App.Model.Update: these turn the source's panic on an out-of-range index into a precondition. The panic itself appears only as `None` from `Todo.Step` and `Todo.Run`.
- Indices are `usize` in the source and `nat` here. No index can reach the 64-bit bound, because it must lie below the list length.
