# Novel reader: navigation stack and read-record table

A Dafny model of the two stateful cores of a small novel-reader application.

- **History** (`history.dfy`) models `HistoryStore`, the breadcrumb trail of the web
  front end. The trail is a list of named locations, with the home entry (path `/`,
  label `搜索`) first and the current page last. `push` appends an entry, `replace` swaps the
  tail, `goHome` resets the trail to the single home entry and `goIndex(i)` truncates it to
  its first `i + 1` entries. The setter of `useActiveLocation` writes a new tail back. Every
  operation also makes one call on the browser's hash history. The class `HistoryStore`
  holds the trail as a `seq`, and every method states the new trail as a function of the
  old one (`Pushed`, `Retopped`, `Truncated`). The module also states an `Op`-level step
  function `Apply` and its iteration `Run`, and proves properties of whole runs of
  operations. `createLocation` from the `history` library is uninterpreted: it is a function
  the store is constructed with. The calls on the hash history are recorded in the ghost
  field `log`, as `HistoryPush`/`HistoryReplace` events.
- **TotalDataStore** (`total_data.dfy`) models `TotalData`, the data file of the
  WebAssembly side. It holds a list of site configurations and a list of read records.
  `load` falls back to one default configuration and no records when parsing fails, and
  `update_data` replaces both lists with the loaded ones. `add_read_record` rejects a record
  that does not deserialise or that belongs to no configured site. Otherwise it updates the
  first equal record in place or appends the new one. `check_exists` looks a record up by
  novel id and site url. The library calls and the `ReadRecord` helpers are parameters of
  the operations that use them.
- **Wrappers** (`wrappers.dfy`) holds `Option`.

The trail is meant to keep the home entry at index 0: the constructor and `goHome` put it
there, and `push` and `goIndex` never remove it. The code breaks this in two cases: `replace`
and the active-location setter both pop the tail and append a new entry, so on a trail
holding only the home entry they remove home. The model follows the code.
`ReplaceRemovesLoneHome` and `SetActiveRemovesLoneHome` show the two cases, and
`HomeStaysFirst` proves the invariant for runs that never replace the tail of a one-entry
trail.

## Model

| member | source | states |
|---|---|---|
| `History.HistoryStore.constructor` | src/utils/store/history.store.ts:15-18 | the trail starts as exactly one entry: `createLocation({pathname: '/'})` named `搜索`; the external log is empty |
| `History.HistoryStore.Push` | src/utils/store/history.store.ts:23-27 | the trail becomes the old trail plus `createLocation(path)` named `path.name`; exactly one external push of `path` is logged; the trail stays non-empty |
| `History.Pushed` | src/utils/store/history.store.ts:26 | a push grows the trail by exactly one, keeps the old trail as a prefix and puts the new entry on top |
| `History.HistoryStore.Replace` | src/utils/store/history.store.ts:32-37 | the length is kept, the tail becomes `createLocation(path)` named `path.name`, and exactly one external replace of `path` is logged |
| `History.DropLast` | src/utils/store/history.store.ts:34 | `pop()` removes one entry from a non-empty array and leaves a prefix of it (nothing happens on an empty array) |
| `History.Retopped` | src/utils/store/history.store.ts:34-36 | pop-then-append keeps the length of a non-empty trail and every entry below the tail, and the new value is the tail; on an empty trail the result is the new value alone |
| `History.HistoryStore.GoHome` | src/utils/store/history.store.ts:43-47 | whatever the trail was, it becomes the single home entry; one external push of `{pathname: '/'}` is logged |
| `History.GoHomeIdempotent` | src/utils/store/history.store.ts:43-47 | going home yields the one-entry home trail, and going home twice is the same as going home once |
| `History.HistoryStore.GoIndex` | src/utils/store/history.store.ts:52-56 | for an index of the trail, the trail becomes the old prefix of length `index + 1` with the old entry at `index` as its tail; the external push is of that old entry |
| `History.Truncated` | src/utils/store/history.store.ts:54 | `slice(0, i + 1)` has length `i + 1`, is a prefix of the trail and ends in the old entry at `i` |
| `History.HistoryStore.SetActive` | src/utils/store/history.store.ts:65-69 | writing the active location keeps the length and every entry below the tail; the value written becomes the tail, so reading the active location returns it; one external replace of that value is logged |
| `History.Active` | src/utils/store/history.store.ts:64 | the projection is defined exactly on a non-empty trail, and then it is the trail's last entry; an empty trail gives none (`undefined`) |
| `History.ActiveAfterRetop` | src/utils/store/history.store.ts:63-69 | lens get-after-set: projecting after a write-back returns the written value |
| `History.RetopActive` | src/utils/store/history.store.ts:63-69 | lens set-after-get: writing back the projected tail leaves the trail unchanged |
| `History.RetopTwice` | src/utils/store/history.store.ts:65-69 | lens set-set: a second write-back overrides the first |
| `History.HomeStaysFirst` | src/utils/store/history.store.ts:23-56 | any run of push, replace, goHome, goIndex and active-location writes from a trail with home first keeps home at index 0 and the trail non-empty, provided replace and the write only happen when the trail has at least two entries |
| `History.ReplaceRemovesLoneHome` | src/utils/store/history.store.ts:32-36 | without that guard the invariant fails: a replace on the lone home entry leaves a trail whose first entry is not home |
| `History.SetActiveRemovesLoneHome` | src/utils/store/history.store.ts:65-69 | the same holds for the active-location setter: writing any value other than home onto the lone home entry leaves a trail whose first entry is not home |
| `History.PushesExtend` | src/utils/store/history.store.ts:23-27 | a run of pushes adds exactly one entry per push and keeps the old trail as a prefix |
| `History.PushesThenBack` | src/utils/store/history.store.ts:23-56 | after any number of pushes, `goIndex` back to the former tail restores exactly the former trail |
| `History.BreadcrumbScenario` | src/utils/store/history.store.ts:23-56 | home, push a work, push a chapter, `goIndex(1)` gives the trail home then the work |
| `TotalDataStore.FindFirst` | data/src/store/total_data.rs:80-84 | the iterator search returns the first position whose element satisfies the predicate, or none when no element does |
| `TotalDataStore.Load` | data/src/store/total_data.rs:31-39 | a parsed buffer gives the parsed value; a parse failure gives exactly one default configuration and an empty record list |
| `TotalDataStore.TotalData.constructor` | data/src/store/total_data.rs:12-17 | the object holds exactly the configurations and records of the value it wraps |
| `TotalDataStore.TotalData.UpdateData` | data/src/store/total_data.rs:42-46 | both lists are replaced by those of `load(buf)`, and nothing else is kept |
| `TotalDataStore.ConfigMatches` | data/src/store/total_data.rs:74-77 | true exactly when some configuration's `main_page_url` satisfies the record's `match_url` |
| `TotalDataStore.Upserted` | data/src/store/total_data.rs:80-89 | with no equal record, the new record is appended after the unchanged old ones; otherwise only the first equal record is replaced by `update(old, new)`, and the length and every other record are unchanged |
| `TotalDataStore.ReAddUpdates` | data/src/store/total_data.rs:80-89 | adding a fresh record twice appends it once and then updates it in place, never appending a duplicate |
| `TotalDataStore.TotalData.AddReadRecord` | data/src/store/total_data.rs:66-94 | the configurations never change; the result is true exactly when the input deserialises and some configuration matches; a false result leaves the records unchanged; a true result upserts as `Upserted` states |
| `TotalDataStore.TotalData.CheckExists` | data/src/store/total_data.rs:105-109 | true exactly when some record has both the given `main_page_url` and the given `novel_id` |

## Left out

- The `history` library: `createHashHistory` and `createLocation` are not modelled. `createLocation` is an uninterpreted constructor parameter, and the hash history's state is only the ghost log of calls made on it. No path or query parsing is modelled.
- The `Store` base class (`./store`) is not part of this model: its subscribers, notification on `setData`, and the `getComputeFunc`/`getDataFunc` hooks are left out. `setData(x)` is modelled as the assignment `data := x`.
- Aliasing of the published array: `replace` and the active-location setter call `pop()` on the array already published to subscribers before publishing a new one. The model treats every published trail as an immutable value.
- The `console.log` of the trail in `replace` (history.store.ts:37) is debug output and is left out.
- History.HistoryStore.GoIndex: requires an index of the current trail. The source does not check it, and other indices are not modelled. An index at or beyond the length pushes `undefined` onto the hash history, and `slice(0, index + 1)` clamps, keeping the whole trail. A negative index makes `slice` count its end from the back of the array: `goIndex(-1)` gives `slice(0, 0)`, the empty trail, which breaks the non-empty invariant, and `goIndex(-2)` drops the tail. Indices are also integers here, not JavaScript numbers.
- History.HistoryStore.Replace: requires the object invariant of a non-empty trail, which every operation keeps. The pop-on-empty case is therefore unreachable through the class, but `Retopped` still defines it as the code does.
- JSON and WebAssembly conversions are foreign library behaviour: `serde_json::from_slice`, `JsValue::into_serde`, `to_data`, `get_all_config`, `get_all_read_record` and the `Into<Vec<u8>>` impl. The first two are parameters; the others are not modelled, and no round trip is claimed.
- The internals of `ReadRecord` (`match_url`, `update`, `PartialEq`) and of `TotalConfig::get_default` are not part of this model. They are parameters, and the fields of both structs other than the site url and novel id are opaque maps.
- src/views/chapterPage.tsx (a React view; it calls `updateActiveName`, which no modelled file defines) and vite.config.ts (build configuration) are not part of this model.
