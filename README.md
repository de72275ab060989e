# Roster stores: a Dafny model

This project models the state-handling core of a small scheduling and roster
web app. It has three parts:

- **People table** (`PeopleStore`). An in-memory list of injured people, kept
  in one `localStorage` slot. `add`, `update` and `remove` change the list at
  once. Each of them then (re)schedules one debounced save. The save writes the
  list with up to three retries. The retry counter is shared by every save of
  the store. When the save fails for good, the change is undone: `add` drops
  the id it added; `update` and `remove` restore the list as it was before
  them. `load` and `save` read and write the slot.
- **D&D days and player availability** (`DndSessions`). Each store mirrors one
  path of a realtime database, modelled as a map from child key to stored
  value. `setDndDay`, availability `add` and availability `remove` write that
  map; failures are swallowed. Every change event replaces the store's list
  with a projection of the map. `isDndDay`, `isTentative` and `getByDate` are
  pure lookups on the list.
- **Appointments** (`Appointments`). A plain in-memory list: `add` appends,
  `remove` filters by id, `getByDate` filters by date.

`Seqs` gives the JavaScript array operations the stores use (`filter`, `find`,
`findIndex`) as functions with their guarantees.

Modelling choices:

- The debounce timer becomes two fields. `timerSet` means `saveTimer` is not
  null. `pending` holds the scheduled callback that has not run yet, together
  with what it will undo. `FireSaveTimer` runs that callback, including the
  whole recursive save, as one step.
- The outcome of each `localStorage.setItem` call comes from a parameter
  `outcome: nat -> Attempt`. `outcome(k)` is the result of the k-th write of
  the save.
- Outcomes of database writes are a `written: bool` parameter.
- Fresh ids from `crypto.randomUUID` are parameters. Where a property needs
  the id to be new, the lemma or method assumes it.
- `typeof window !== 'undefined'` is the constant `inBrowser`.
- The order in which a change event delivers the children is a parameter
  `order`. It must list each key of the map exactly once (`ListsKeys`).

Behaviour of the code worth noting:

- Appointments `add` makes no check for an existing appointment at the same
  date and time, and never refuses.
- A `load` whose stored text cannot be parsed sets `error` and leaves the list
  as it was; it does not empty it.
- The database-backed stores have no startup timeout and no rollback.
- The initial load runs only in a browser. Outside one, `isLoading` stays true.

## Model

| member | source | states |
|---|---|---|
| `Seqs.Filter` | src/lib/stores/appointments.ts:22 | `filter` keeps exactly the elements that pass the test, so it never grows the list. It returns the list unchanged when all pass, and is strictly shorter when one fails |
| `Seqs.FilterAppend` | src/lib/stores/dndSessions.ts:104-107 | filtering distributes over concatenation, so kept elements keep their relative order |
| `Seqs.FilterIdempotent` | src/lib/stores/appointments.ts:21-22 | filtering twice by the same test equals filtering once, so a second `remove` of the same id changes nothing |
| `Seqs.FindIndex` | src/lib/stores.ts:133-134 | `findIndex` is -1 exactly when no element matches; otherwise it is the first matching index |
| `Seqs.Find` | src/lib/stores.ts:157-158 | `find` is undefined exactly when no element matches; otherwise it returns a matching element that no other match precedes |
| `PeopleStore.Merge` | src/lib/stores.ts:137-141 | the merged person keeps the id. Each field given in the patch replaces the old value and every absent field is kept; an empty patch changes nothing |
| `PeopleStore.Serialize` | src/lib/stores.ts:20-29 | what a successful write stores is read back by `load` as the same list |
| `PeopleStore.RetrySpec` | src/lib/stores.ts:31-48 | a save makes at most `MAX_RETRIES - count + 1` writes, which is 4 from a zero counter, and every write before the last one failed. On success the counter is 0 and the last write succeeded. On failure the counter is `MAX_RETRIES`, every allowed write was made, and the last write's failure is rethrown. The counter never exceeds `MAX_RETRIES` |
| `PeopleStore.SaveSucceedsIff` | src/lib/stores.ts:35-44 | the save resolves if and only if one of the writes it is allowed succeeds |
| `PeopleStore.ExhaustedCounterDoesNotRetry` | src/lib/stores.ts:39-44 | with the counter left at `MAX_RETRIES` by an earlier failure, a failing write is rethrown after that single write |
| `PeopleStore.DropAddedRestores` | src/lib/stores.ts:112-128 | filtering out a fresh id after prepending its person gives back the original list |
| `PeopleStore.PeopleStore.constructor` | src/lib/stores.ts:10-60 | the initial load: in a browser the slot's list is loaded, or the parse error is shown, and loading ends; outside a browser the list is empty and `isLoading` stays true. The counter is 0 and no save is pending |
| `PeopleStore.PeopleStore.SaveWithRetry` | src/lib/stores.ts:31-48 | the recursive save agrees with `RetrySpec` on its result, the counter and the number of writes. Afterwards `isSaving` is false and `error` is empty, whether it succeeded or threw. The slot is written only on success. The list and the pending timer are untouched |
| `PeopleStore.PeopleStore.FireSaveTimer` | src/lib/stores.ts:144-153 | the debounced callback saves the current list. On success the list stays and the slot holds it. On terminal failure `error` is set from the thrown failure and the list is rolled back: the added id is filtered out, or the snapshot is restored. No save is pending afterwards |
| `PeopleStore.PeopleStore.Cleanup` | src/lib/stores.ts:63-68 | afterwards no save is pending and the timer is cleared; nothing else changes |
| `PeopleStore.PeopleStore.Load` | src/lib/stores.ts:86-100 | `isLoading` is always false at the end. A missing or empty slot leaves list and error unchanged. A parsed list replaces the data. A parse failure sets `error` and keeps the data |
| `PeopleStore.PeopleStore.Save` | src/lib/stores.ts:101-111 | in a browser, a successful write stores the list, replaces the data and clears `error`; a failed one only sets `error`. Outside a browser nothing changes |
| `PeopleStore.PeopleStore.Set` | src/lib/stores.ts:85 | the list becomes the given one |
| `PeopleStore.PeopleStore.Add` | src/lib/stores.ts:112-130 | the list grows by one. Its head is the given fields under the new id and its tail is the old list. The one pending save will drop that id if it fails |
| `PeopleStore.PeopleStore.Update` | src/lib/stores.ts:131-154 | for an id not in the list, nothing changes and no save is scheduled. Otherwise only the first index with that id changes: it becomes the merged entry and keeps its id, and the length is kept. The one pending save will restore the pre-update list |
| `PeopleStore.PeopleStore.Remove` | src/lib/stores.ts:155-174 | for an id not in the list, nothing changes and no save is scheduled. Otherwise every entry with that id is filtered out, in order, and the list gets shorter. The one pending save will restore the pre-remove list |
| `PeopleStore.AddThenFailedSave` | src/lib/stores.ts:112-129 | an `add` of a fresh id followed by a save whose writes all fail leaves the list and the slot as before. `error` is non-empty and the counter is at `MAX_RETRIES` |
| `PeopleStore.UpdateThenFailedSave` | src/lib/stores.ts:131-153 | an `update` of a listed id followed by a save that fails for good leaves exactly the pre-update list, with `error` non-empty |
| `PeopleStore.RemoveThenFailedSave` | src/lib/stores.ts:155-173 | a `remove` of a listed id followed by a save that fails for good leaves exactly the pre-remove list, with `error` non-empty |
| `PeopleStore.CoalescedAddsKeepFirst` | src/lib/stores.ts:116-129 | two `add`s inside one debounce window share one save. When it fails only the second is undone, so the first person stays in the list although it was never written |
| `DndSessions.ProjectDays` | src/lib/stores/dndSessions.ts:26-37 | there is one day per stored date, in delivery order, with distinct dates and `date` equal to the key. A missing flag reads as false. An empty snapshot gives `[]` |
| `DndSessions.IsDndDay` | src/lib/stores/dndSessions.ts:54-57 | true exactly when the first entry with that date is a D&D day; false when there is none |
| `DndSessions.IsTentative` | src/lib/stores/dndSessions.ts:58-61 | true exactly when the first entry with that date is tentative; false when there is none |
| `DndSessions.SetDay` | src/lib/stores/dndSessions.ts:43-49 | the date is present exactly when either flag is set, and then holds both flags. Every other key and its value are unchanged |
| `DndSessions.SetDayThenQuery` | src/lib/stores/dndSessions.ts:43-61 | after `setDndDay(date, a, t)` and the next change event, `isDndDay(date)` is `a` and `isTentative(date)` is `t`, for any delivery order |
| `DndSessions.DndDaysStore.constructor` | src/lib/stores/dndSessions.ts:18-22 | the list starts empty |
| `DndSessions.DndDaysStore.OnValue` | src/lib/stores/dndSessions.ts:26-38 | the list becomes the projection of the current children, `[]` for an empty snapshot |
| `DndSessions.DndDaysStore.SetDndDay` | src/lib/stores/dndSessions.ts:43-53 | a successful write makes the map `SetDay` of the old map; a failed one leaves it unchanged, and nothing is thrown |
| `DndSessions.ProjectAvailability` | src/lib/stores/dndSessions.ts:73-84 | there is one entry per child, in delivery order, with the stored fields. Its id is the key unless the stored value carries its own id. An empty snapshot gives `[]` |
| `DndSessions.AvailabilityIdsAreKeys` | src/lib/stores/dndSessions.ts:76-79 | when no stored value carries an id, the ids of the list are exactly the keys and are distinct |
| `DndSessions.GetByDate` | src/lib/stores/dndSessions.ts:104-107 | returns exactly the entries whose date matches, all taken from the list |
| `DndSessions.GetByDateKeepsOrder` | src/lib/stores/dndSessions.ts:104-107 | `getByDate` keeps list order and multiplicity: for a list `a + [x] + b` the result is the result for `a`, then `x` if it is on that date, then the result for `b` |
| `DndSessions.AvailabilityStore.constructor` | src/lib/stores/dndSessions.ts:65-69 | the list starts empty |
| `DndSessions.AvailabilityStore.OnValue` | src/lib/stores/dndSessions.ts:72-85 | the list becomes the availability projection of the current children |
| `DndSessions.AvailabilityStore.Add` | src/lib/stores/dndSessions.ts:89-96 | a successful write stores the fields, without an id, under the new key. For a fresh key the map grows by one. A failed write changes nothing and nothing is thrown |
| `DndSessions.AvailabilityStore.Remove` | src/lib/stores/dndSessions.ts:97-103 | a successful delete removes exactly that key and keeps every other entry; a failed one changes nothing and nothing is thrown |
| `Appointments.GetByDate` | src/lib/stores/appointments.ts:24-26 | returns exactly the appointments on that date, all taken from the list, and the whole list when every entry has that date |
| `Appointments.GetByDateKeepsOrder` | src/lib/stores/appointments.ts:24-26 | `getByDate` keeps list order and multiplicity: for a list `a + [x] + b` the result is the result for `a`, then `x` if it is on that date, then the result for `b` |
| `Appointments.AddThenRemoveRestores` | src/lib/stores/appointments.ts:15-22 | appending an appointment under a fresh id and then removing that id gives back the original list |
| `Appointments.AppointmentsStore.constructor` | src/lib/stores/appointments.ts:11 | the list starts empty |
| `Appointments.AppointmentsStore.Add` | src/lib/stores/appointments.ts:15-20 | appends one appointment with the given fields under the new id and leaves the earlier entries unchanged. There is no duplicate check |
| `Appointments.AppointmentsStore.Remove` | src/lib/stores/appointments.ts:21-23 | every appointment with that id is filtered out and the rest keep their order. An absent id leaves the list unchanged |

## Left out

- Svelte `writable`/`derived` stores, `subscribe` and observer notification: each store's state is a set of plain fields. Unsubscribing runs `cleanup`, modelled as `Cleanup`.
- Timing: the 300 ms debounce and the `1000 * retryCount` ms backoff are not modelled. Overlapping timers and async steps that interleave are not modelled either: a fired save runs to completion as one step.
- PeopleStore.PeopleStore.SaveWithRetry: states `isSaving` and `error` only at the end of the call. The states in between, where `isSaving` is true and `error` was just cleared, are visible only to observers during the backoff and are not exposed.
- `localStorage`, `JSON.stringify` and `JSON.parse` are abstract. A slot holds an empty string, the encoding of a list, or text whose reading or parsing throws. A stored JSON value that parses but is not a list of people is not modelled; the source would put it into the list unchecked.
- The error text is the thrown `Error`'s message, or a fixed fallback for other thrown values. So `error` is non-empty after a failure only when that message is non-empty; the scenario methods assume this (`AllWritesFail`).
- The realtime database client: `ref`, `set`, `remove`, `onValue` and their network behaviour become a map per path and a `written` flag per write. Detaching the change listener is not modelled. Stored values whose fields have other types than declared are not modelled.
- DndSessions.SetDay: treats `date` as one child key of `dndDays`. The source builds the path `dndDays/${date}` without checks, and the database client drops empty path segments. So `setDndDay("", ...)` overwrites or deletes the whole `dndDays` node, and a date containing `/` writes a grandchild. "Every other key is unchanged" holds only for a date that is non-empty and has no `/`.
- DndSessions.DndDaysStore.SetDndDay: the same path gap as `SetDay`. An empty date or one containing `/` is not modelled.
- DndSessions.SetDayThenQuery: holds for dates that are one child key: non-empty, with no `/`. The empty date and dates containing `/` are not modelled.
- DndSessions.AvailabilityStore.Remove: treats `id` as one child key of `playerAvailability`. `remove("")` deletes every availability entry in the source, and an id containing `/` deletes a grandchild; neither is modelled.
- `crypto.randomUUID` is a parameter. `console.error` logging is dropped.
- The default argument `isTentative = false` of `setDndDay` is not modelled separately: `SetDndDay` always takes both flags.
- src/lib/firebase.ts (configuration and SDK setup), src/routes/lame/+page.ts, src/routes/lame/+page.server.ts and svelte.config.js are not part of this model. They hold configuration and routing glue.
