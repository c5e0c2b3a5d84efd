# Drasi SignalR data source for Grafana: change reconciliation, modelled in Dafny

The Grafana data source plugin for Drasi subscribes to continuous queries over SignalR
and turns their change feeds into Grafana data frames. This project models the part of
the plugin that reconciles those feeds:

- **The replace builder** (`ReplaceBuilder`). It keeps the current rows of a result in an
  insertion-ordered `Map` from a content-derived row key (a djb2 hash, truncated to 32 bits
  and rendered in base 36) to the row. Inserts, updates and deletes are applied to that map;
  an update or delete finds its row by a first-match scan. One columnar frame is rebuilt
  from all the rows, or an `id` placeholder frame when there are none.
- **The append builder** (`AppendBuilder`). It keeps a history of one-row frames named
  `${refId}_${operation}_${counter}`, one per insert, update or delete. A snapshot reload
  restarts the history with one `snapshot` frame per non-empty row.
- **The builder interface and the factory** (`DataFrameBuilder`, `FrameBuilderFactory`).
  These dispatch to either builder and pick the builder kind from the query's mode;
  `append` selects the append builder, and anything else selects the replace builder.
- **The data source's bookkeeping** (`Session`). Four maps are kept: listeners by query id,
  builders by result id (refId), the refIds bound to each query id, and the observers
  watching each refId. The model covers:
  - how a query request's targets are filtered, attached and set up;
  - how a change event or a snapshot reload fans out to every bound builder and every
    observer;
  - how the cleanup closure detaches the targets;
  - `reloadSnapshot` and `dispose`.

Shared pieces live in `Js` and `Frames`:

- `Js` holds the JavaScript semantics the code relies on:
  - `||` on strings, `===`, and property lookup;
  - `trim`, `sort()` and `JSON.stringify` inside a template literal;
  - UTF-16 `charCodeAt`, ToInt32 and `toString(radix)`.
- `Frames` holds change events, frames and builder responses.

`OrderedMap` is a JavaScript `Map` as a sequence of entries in insertion order.

Each builder is a class whose methods are proved to produce exactly the state and
response that a pure function gives (`Change`, `Reload`). The properties of the builders
are proved about those functions. The data source is a class over the four maps. Its
methods are proved against the map functions `Attach`, `Detach`, `Register` and `FanOut`.

Inputs and outputs that the code gets from outside become explicit:

- `Date.now()` is a `now` parameter of each method that reads the clock (see "Left out" for
  snapshots).
- A change event, a reload answer (`Delivered(rows)` or `Failed`, for a rejection or
  timeout) and a reconnection are method inputs.
- A call of `observer.next(...)` is a `Push` record (observer, key, frames, state) in the
  method's result.

## Model

| member | source | states |
|---|---|---|
| Js.Or | src/builders/ReplaceFrameBuilder.ts:15 | definition of `a \|\| d` on an optional string: the string when it is present and non-empty, else the default |
| Js.StrictEquals | src/builders/ReplaceFrameBuilder.ts:178 | definition of `===` on row values: primitives compare by value, Date objects by identity |
| Js.Names | src/builders/ReplaceFrameBuilder.ts:113 | `Object.keys(row)` lists one name per property, in property order |
| Js.Get | src/builders/ReplaceFrameBuilder.ts:114 | definition of `row[key]`: the own property's value, `undefined` when the row has none |
| Js.Contains | src/builders/ReplaceFrameBuilder.ts:123 | definition of `s.includes(part)`: `part` occurs at some position of `s` |
| Js.ToLower | src/builders/ReplaceFrameBuilder.ts:123 | `toLowerCase()` keeps the length, lower-casing ASCII letters |
| Js.Join | src/builders/ReplaceFrameBuilder.ts:152 | definition of `parts.join(sep)` |
| Js.IsWhitespace | src/datasource.ts:45 | definition of the ECMAScript WhiteSpace and LineTerminator characters that `trim` removes |
| Js.Trim | src/datasource.ts:45 | definition of `s.trim()`: leading, then trailing, white space removed |
| Js.TrimEmptyIffBlank | src/datasource.ts:45 | `s.trim()` is empty exactly when every character of `s` is ECMAScript white space |
| Js.Less | src/builders/ReplaceFrameBuilder.ts:151 | definition of the string order `sort()` uses: lexicographic, character by character |
| Js.Sort | src/builders/ReplaceFrameBuilder.ts:151 | `names.sort()` returns a permutation of its input |
| Js.SortSorted | src/builders/ReplaceFrameBuilder.ts:151 | sorting distinct names gives a strictly ascending sequence |
| Js.SortedUnique | src/builders/ReplaceFrameBuilder.ts:151 | two strictly sorted sequences holding the same strings are equal, so the sorted name order does not depend on the input order |
| Js.ToInt32 | src/builders/ReplaceFrameBuilder.ts:157-158 | ToInt32 yields the signed 32-bit integer congruent to its argument modulo 2^32 |
| Js.ToInt32Congruent | src/builders/ReplaceFrameBuilder.ts:157-158 | arguments congruent modulo 2^32 have the same ToInt32 |
| Js.Radix | src/builders/ReplaceFrameBuilder.ts:161 | `n.toString(base)` is non-empty and each character is a digit below the base |
| Js.Json | src/builders/ReplaceFrameBuilder.ts:152 | definition of `${JSON.stringify(v)}` for each kind of modelled value |
| Js.RadixRoundTrip | src/builders/ReplaceFrameBuilder.ts:161 | reading the base-`b` rendering of `n` back gives `n` |
| Js.RadixInjective | src/builders/AppendFrameBuilder.ts:136 | different numbers render differently |
| Js.Utf16 | src/builders/ReplaceFrameBuilder.ts:157 | a character is one UTF-16 code unit, or a surrogate pair of two, each in 0..65535 |
| Js.CodeUnits | src/builders/ReplaceFrameBuilder.ts:156-157 | the `charCodeAt` values of a string are UTF-16 code units in 0..65535, at least one per character |
| Js.GetAt | src/builders/ReplaceFrameBuilder.ts:114 | looking a row's own property up by its name gives that property's value |
| Frames.InferType | src/builders/ReplaceFrameBuilder.ts:115-125 | numbers give number fields, booleans boolean fields, Dates time fields; a name containing "time" or "date" gives a time field, and everything else a string field |
| Frames.Before | src/builders/DataFrameBuilder.ts:6 | definition of `event.payload?.before` |
| Frames.After | src/builders/DataFrameBuilder.ts:7 | definition of `event.payload?.after` |
| OrderedMap.Keys | src/builders/ReplaceFrameBuilder.ts:10 | definition of `Array.from(map.keys())`: the keys in insertion order |
| OrderedMap.IndexOf | src/builders/ReplaceFrameBuilder.ts:26 | the position found holds the key; no position is found exactly when the key is absent |
| OrderedMap.Lookup | src/builders/ReplaceFrameBuilder.ts:10 | definition of `map.get(key)` on the dataset: the value at the key's position, none when the key is absent |
| OrderedMap.MapSet | src/builders/ReplaceFrameBuilder.ts:26 | definition of `dataset.set(key, value)`: overwrite in place when the key is present, append otherwise |
| OrderedMap.MapDelete | src/builders/ReplaceFrameBuilder.ts:39 | definition of `dataset.delete(key)`: remove the key's entry and close the gap, or change nothing |
| OrderedMap.IndexOfDistinct | src/builders/ReplaceFrameBuilder.ts:39 | with distinct keys, the lookup of an entry's key finds that entry |
| OrderedMap.MapSetLookup | src/builders/ReplaceFrameBuilder.ts:26 | `Map.set` keeps the keys distinct, appends a new key at the end or keeps the key order, and changes the value of that key only |
| OrderedMap.MapSetEntry | src/builders/ReplaceFrameBuilder.ts:85 | after `Map.set` every entry is the new entry or the entry that was at the same position |
| OrderedMap.MapSetSize | src/builders/ReplaceFrameBuilder.ts:85 | `Map.set` grows the map by one exactly when the key was absent |
| OrderedMap.RemoveAtKeys | src/builders/ReplaceFrameBuilder.ts:54 | removing one entry shifts the later entries down, keeps the keys distinct and drops exactly that key |
| OrderedMap.MapDeleteLookup | src/builders/ReplaceFrameBuilder.ts:54 | `Map.delete` keeps the keys distinct, removes the key and leaves every other key's value alone |
| OrderedMap.MapDeleteEntry | src/builders/ReplaceFrameBuilder.ts:39 | every entry left after `Map.delete` was an entry before |
| ReplaceBuilder.KeyParts | src/builders/ReplaceFrameBuilder.ts:151-152 | there are as many `name:JSON` parts as the row has properties |
| ReplaceBuilder.KeyPartsContents | src/builders/ReplaceFrameBuilder.ts:151-152 | the parts are exactly the `name:JSON(value)` strings of the row's properties, whatever their order in the row |
| ReplaceBuilder.KeyString | src/builders/ReplaceFrameBuilder.ts:151-152 | definition of the key string: the sorted parts joined by `\|` |
| ReplaceBuilder.Djb2 | src/builders/ReplaceFrameBuilder.ts:155-159 | the hash stays a signed 32-bit integer |
| ReplaceBuilder.RowKey | src/builders/ReplaceFrameBuilder.ts:149-162 | a row key is never the empty string |
| ReplaceBuilder.RowKeyDecodes | src/builders/ReplaceFrameBuilder.ts:161 | a row key read in base 36 is the absolute value of the 32-bit hash, at most 2^31 |
| ReplaceBuilder.PairsAgree | src/builders/ReplaceFrameBuilder.ts:152 | rows with the same (name, JSON text) pairs have the same names, and each name serializes alike in both |
| ReplaceBuilder.SortedNamesAgree | src/builders/ReplaceFrameBuilder.ts:151 | rows with the same property names sort them into the same sequence |
| ReplaceBuilder.RowKeyDependsOnPairs | src/builders/ReplaceFrameBuilder.ts:149-152 | the key string and the row key depend only on the set of (name, serialized value) pairs |
| ReplaceBuilder.RowKeyIgnoresOrder | src/builders/ReplaceFrameBuilder.ts:149-152 | reordering a row's properties does not change its key |
| ReplaceBuilder.HashStep | src/builders/ReplaceFrameBuilder.ts:157-158 | `((hash << 5) + hash) + c` truncated by `hash & hash` equals `hash * 33 + c` taken modulo 2^32 as a signed integer |
| ReplaceBuilder.Rows | src/builders/ReplaceFrameBuilder.ts:107 | definition of `Array.from(dataset.values())`: the rows in insertion order |
| ReplaceBuilder.MapSetKeyed | src/builders/ReplaceFrameBuilder.ts:26 | setting a row under its own key keeps every row stored under its own key, once |
| ReplaceBuilder.MapDeleteKeyed | src/builders/ReplaceFrameBuilder.ts:39 | deleting a key keeps every remaining row under its own key, once |
| ReplaceBuilder.Matches | src/builders/ReplaceFrameBuilder.ts:173-184 | definition of objectsMatch: every property of the target is `===` to the candidate's property of that name |
| ReplaceBuilder.FirstMatch | src/builders/ReplaceFrameBuilder.ts:164-171 | the position found is the first, in insertion order, whose row matches; none is found exactly when no row matches |
| ReplaceBuilder.RemoveMatch | src/builders/ReplaceFrameBuilder.ts:36-40 | definition of the update's removal: delete the key of the first matching row, if any |
| ReplaceBuilder.RemoveMatchAt | src/builders/ReplaceFrameBuilder.ts:37-40 | deleting the key of the matched row removes exactly that position; without a match the dataset is unchanged |
| ReplaceBuilder.BuildFrame | src/builders/ReplaceFrameBuilder.ts:106-147 | without rows the frame is the `Query <refId> (empty)` placeholder with one empty `id` string field; otherwise it has one field per property of the first row, named and typed from it, each holding the value of that name in every row in dataset order |
| ReplaceBuilder.Upsert | src/builders/ReplaceFrameBuilder.ts:25-26 | definition of `dataset.set(generateRowKey(row), { ...row })` |
| ReplaceBuilder.ChangeDataset | src/builders/ReplaceFrameBuilder.ts:21-66 | definition of the op switch: the dataset after the event and whether the frame is rebuilt |
| ReplaceBuilder.Change | src/builders/ReplaceFrameBuilder.ts:18-76 | definition of processChange: the new dataset, the frame rebuilt when asked, and the current frame with `Done` |
| ReplaceBuilder.ReloadDataset | src/builders/ReplaceFrameBuilder.ts:80-86 | definition of the reloaded dataset: from empty, every snapshot row set under its key, in order |
| ReplaceBuilder.Reload | src/builders/ReplaceFrameBuilder.ts:78-95 | definition of processReload: the reloaded dataset, its rebuilt frame, and that frame with `Done` |
| ReplaceBuilder.DistinctCard | src/builders/ReplaceFrameBuilder.ts:10 | distinct keys are as many as the entries |
| ReplaceBuilder.ChangeKeepsKeyed | src/builders/ReplaceFrameBuilder.ts:18-65 | every change event keeps each row stored under its own key, with no key twice |
| ReplaceBuilder.RemoveMatchKeyed | src/builders/ReplaceFrameBuilder.ts:36-40 | removing the matching row keeps the dataset keyed |
| ReplaceBuilder.ChangeConsistent | src/builders/ReplaceFrameBuilder.ts:18-76 | processChange keeps the builder invariant (keyed dataset, frame rebuilt from it) and always answers `Done` with the current frame |
| ReplaceBuilder.NoRebuildKeepsDataset | src/builders/ReplaceFrameBuilder.ts:68-70 | an event that does not ask for a rebuild leaves the dataset as it was |
| ReplaceBuilder.InsertSetsRow | src/builders/ReplaceFrameBuilder.ts:22-29 | an insert with an `after` row sets that row under its own key, overwriting, and leaves every other key's row alone; the frame is rebuilt |
| ReplaceBuilder.UpdateReplacesRow | src/builders/ReplaceFrameBuilder.ts:31-47 | an update with both rows removes the first matching row, if any, then sets `after` under its own key even when nothing matched; the frame is rebuilt |
| ReplaceBuilder.DeleteRemovesMatch | src/builders/ReplaceFrameBuilder.ts:49-58 | a delete removes the first matching row and rebuilds; with no match, the state is unchanged |
| ReplaceBuilder.IgnoredEventsChangeNothing | src/builders/ReplaceFrameBuilder.ts:60-75 | control events, unknown ops and events lacking the row they need leave the state unchanged and answer the current frame, or none, with `Done` |
| ReplaceBuilder.ReloadKeyed | src/builders/ReplaceFrameBuilder.ts:83-86 | the reloaded dataset holds each row under its own key, once |
| ReplaceBuilder.ReloadKeys | src/builders/ReplaceFrameBuilder.ts:83-86 | the reloaded dataset's keys are exactly the keys of the snapshot rows |
| ReplaceBuilder.ReloadRows | src/builders/ReplaceFrameBuilder.ts:83-86 | every reloaded row is a snapshot row |
| ReplaceBuilder.ReloadDatasetSize | src/builders/ReplaceFrameBuilder.ts:83-86 | rows of identical content collapse, so the dataset has at most as many rows as the snapshot |
| ReplaceBuilder.ReloadReplacesDataset | src/builders/ReplaceFrameBuilder.ts:78-95 | processReload replaces the dataset by the keyed snapshot rows, keeps the invariant, rebuilds, and answers the rebuilt frame with `Done` |
| ReplaceBuilder.FrameRowsAreDistinctKeys | src/builders/ReplaceFrameBuilder.ts:106-138 | the frame holds one value per distinct row key in every field |
| ReplaceBuilder.MatchesReflexive | src/builders/ReplaceFrameBuilder.ts:173-184 | every row matches itself |
| ReplaceBuilder.ReplaceScenario | src/builders/ReplaceFrameBuilder.ts:18-76 | insert r1, update it to r2, delete r2: the dataset holds r1, then r2 only, then nothing, and the frame ends as the empty placeholder |
| ReplaceBuilder.InsertIntoEmpty | src/builders/ReplaceFrameBuilder.ts:22-29 | inserting into an empty builder stores exactly that row and its frame |
| ReplaceBuilder.UpdateSingle | src/builders/ReplaceFrameBuilder.ts:31-47 | updating the only row replaces it by the new row |
| ReplaceBuilder.DeleteSingle | src/builders/ReplaceFrameBuilder.ts:49-58 | deleting the only row leaves an empty dataset and the placeholder frame |
| ReplaceBuilder.ReplaceFrameBuilder.constructor | src/builders/ReplaceFrameBuilder.ts:14-16 | a new builder has refId `refId \|\| queryId`, an empty dataset and no frame |
| ReplaceBuilder.ReplaceFrameBuilder.ProcessChange | src/builders/ReplaceFrameBuilder.ts:18-76 | the new state and the response are those of `Change`; the invariant is kept |
| ReplaceBuilder.ReplaceFrameBuilder.ApplyChange | src/builders/ReplaceFrameBuilder.ts:21-65 | the op switch updates the dataset as `ChangeDataset` does and reports whether to rebuild |
| ReplaceBuilder.ReplaceFrameBuilder.InsertRow | src/builders/ReplaceFrameBuilder.ts:23-27 | the `after` row is set under its own key |
| ReplaceBuilder.ReplaceFrameBuilder.UpdateRow | src/builders/ReplaceFrameBuilder.ts:32-46 | the matching row's key is deleted, then `after` is set under its own key |
| ReplaceBuilder.ReplaceFrameBuilder.DeleteRow | src/builders/ReplaceFrameBuilder.ts:50-57 | the matching row is removed; a rebuild is requested exactly when a row matched |
| ReplaceBuilder.ReplaceFrameBuilder.ProcessReload | src/builders/ReplaceFrameBuilder.ts:78-95 | the loop leaves the state and the response of `Reload` (the snapshot rows set in order) and keeps the invariant |
| ReplaceBuilder.ReplaceFrameBuilder.GetCurrentFrames | src/builders/ReplaceFrameBuilder.ts:97-99 | at most one frame; none exactly when no frame is built, otherwise the frame rebuilt from the dataset |
| ReplaceBuilder.ReplaceFrameBuilder.Clear | src/builders/ReplaceFrameBuilder.ts:101-104 | clear empties the dataset and drops the frame, keeping the refId |
| ReplaceBuilder.ReplaceFrameBuilder.RebuildFrame | src/builders/ReplaceFrameBuilder.ts:106-147 | the current frame becomes the frame built from the rows |
| ReplaceBuilder.ReplaceFrameBuilder.GenerateRowKey | src/builders/ReplaceFrameBuilder.ts:149-162 | the shift-and-add loop with `hash & hash` computes `RowKey`, the djb2 hash of the sorted key string wrapped to 32 bits |
| ReplaceBuilder.ReplaceFrameBuilder.FindRowByData | src/builders/ReplaceFrameBuilder.ts:164-171 | the scan returns the key of the first matching row in insertion order, or nothing |
| ReplaceBuilder.ReplaceFrameBuilder.ObjectsMatch | src/builders/ReplaceFrameBuilder.ts:173-184 | the scan answers true exactly when every property of the target is `===` to the candidate's property of that name |
| AppendBuilder.FrameName | src/builders/AppendFrameBuilder.ts:136 | definition of the frame name `${refId}_${operation}_${counter}` |
| AppendBuilder.RowFrame | src/builders/AppendFrameBuilder.ts:97-137 | definition of the one-row frame built from a non-empty row |
| AppendBuilder.RowFrameRoundTrip | src/builders/AppendFrameBuilder.ts:90-138 | a created frame starts with the time field `_timestamp` holding the time and the string field `_operation` holding the operation, then the row's fields, one value each, typed by inference, from which the row reads back; it is named after the operation and the counter and carries the refId |
| AppendBuilder.LastSegmentOf | src/builders/AppendFrameBuilder.ts:136 | the digits of the counter are the last underscore-separated segment of a frame name |
| AppendBuilder.FrameNameInjective | src/builders/AppendFrameBuilder.ts:136 | frames with different counters get different names, whatever their operations |
| AppendBuilder.NonEmpty | src/builders/AppendFrameBuilder.ts:67-73 | the rows that produce a snapshot frame are non-empty snapshot rows |
| AppendBuilder.CreateFrame | src/builders/AppendFrameBuilder.ts:90-138 | definition of createFrameFromRow on the state: no frame for an empty row, otherwise the next counter and its frame |
| AppendBuilder.ChangeRow | src/builders/AppendFrameBuilder.ts:21-46 | definition of the op switch: the `after` row for insert and update, the `before` row for delete, none otherwise |
| AppendBuilder.Change | src/builders/AppendFrameBuilder.ts:18-56 | definition of processChange: the created frame, if any, appended and answered with `Streaming` |
| AppendBuilder.ChangeAppends | src/builders/AppendFrameBuilder.ts:18-56 | a change appends at most one frame and leaves the earlier ones untouched; the response holds exactly the appended frames with `Streaming`; the invariant is kept |
| AppendBuilder.ChangeFrame | src/builders/AppendFrameBuilder.ts:21-50 | a frame is added exactly for an insert or update with `after`, or a delete with `before`, whose row is not empty; it shows that row, is labelled insert, update or delete, and takes the next counter |
| AppendBuilder.SnapshotFrames | src/builders/AppendFrameBuilder.ts:67-73 | definition of the snapshot frames: one `snapshot` frame per non-empty row, counting on from `start` |
| AppendBuilder.Reload | src/builders/AppendFrameBuilder.ts:58-79 | definition of processReload: history and counter restart with the snapshot frames, answered with `Done` |
| AppendBuilder.SnapshotFramesRows | src/builders/AppendFrameBuilder.ts:67-73 | the snapshot frames are the row frames of the non-empty rows, in order, numbered on from the start |
| AppendBuilder.SnapshotFramesShape | src/builders/AppendFrameBuilder.ts:58-79 | each snapshot frame shows its row, is labelled `snapshot`, belongs to the refId and is numbered in order |
| AppendBuilder.ReloadRestarts | src/builders/AppendFrameBuilder.ts:58-79 | processReload discards the history, keeps one `snapshot` frame per non-empty row numbered from 1, and answers exactly those frames with `Done` |
| AppendBuilder.FrameNamesDistinct | src/builders/AppendFrameBuilder.ts:133-137 | no two frames of the history share a name |
| AppendBuilder.AppendScenario | src/builders/AppendFrameBuilder.ts:18-56 | insert, update and delete of a row give three frames named `<refId>_insert_1`, `<refId>_update_2` and `<refId>_delete_3`; the delete is recorded with the deleted row |
| AppendBuilder.AppendFrameBuilder.constructor | src/builders/AppendFrameBuilder.ts:14-16 | a new builder has refId `refId \|\| queryId`, no frames and counter 0 |
| AppendBuilder.AppendFrameBuilder.ProcessChange | src/builders/AppendFrameBuilder.ts:18-56 | the new state and the response are those of `Change`; the invariant is kept |
| AppendBuilder.AppendFrameBuilder.ProcessReload | src/builders/AppendFrameBuilder.ts:58-79 | the `forEach` loop leaves the state and the response of `Reload`; the invariant is kept |
| AppendBuilder.AppendFrameBuilder.GetCurrentFrames | src/builders/AppendFrameBuilder.ts:81-83 | the history has as many frames as the counter, and the i-th is named with counter i |
| AppendBuilder.AppendFrameBuilder.Clear | src/builders/AppendFrameBuilder.ts:85-88 | clear empties the history and resets the counter to 0 |
| AppendBuilder.AppendFrameBuilder.CreateFrameFromRow | src/builders/AppendFrameBuilder.ts:90-138 | an empty row gives no frame and leaves the counter unchanged; otherwise the counter rises by one and the frame is the row frame with that counter |
| DataFrameBuilder.Apply | src/builders/DataFrameBuilder.ts:22-42 | definition of the interface's dispatch: a change or a reload handled by the builder's own class |
| DataFrameBuilder.ApplyKeepsBuilder | src/builders/DataFrameBuilder.ts:22-42 | every action keeps the builder's kind, refId and invariant; replace always answers `Done` with its current frame; append answers a change with `Streaming` and the appended frames, and a reload with `Done` and the current frames |
| DataFrameBuilder.ProcessChange | src/builders/DataFrameBuilder.ts:26 | dispatches processChange to the builder's class and its state becomes `Apply` of the change |
| DataFrameBuilder.ProcessReload | src/builders/DataFrameBuilder.ts:31 | dispatches processReload to the builder's class and its state becomes `Apply` of the reload |
| DataFrameBuilder.Clear | src/builders/DataFrameBuilder.ts:41 | clear leaves an empty builder of the same kind and refId |
| DataFrameBuilder.GetCurrentFrames | src/builders/DataFrameBuilder.ts:36 | the frames are the current frames of the builder's state |
| FrameBuilderFactory.SelectVariant | src/builders/FrameBuilderFactory.ts:11-19 | the append builder is chosen exactly for the mode `append`; an absent, empty, `replace` or unknown mode chooses the replace builder |
| FrameBuilderFactory.Initial | src/builders/FrameBuilderFactory.ts:13-19 | a new builder is empty, consistent, of the selected kind and has the given refId |
| FrameBuilderFactory.CreateBuilder | src/builders/FrameBuilderFactory.ts:10-20 | a fresh builder of the selected kind, empty, with refId `refId \|\| queryId` |
| Session.RefIdOf | src/datasource.ts:218 | definition of `target.refId \|\| target.queryId` |
| Session.ModeOf | src/datasource.ts:236 | definition of `target.mode \|\| 'replace'` |
| Session.FilterQuery | src/datasource.ts:44-46 | definition of filterQuery: the query id is present and not blank |
| Session.FilterQueryIff | src/datasource.ts:44-46 | a target is kept exactly when it has a query id with a character that is not white space |
| Session.ActiveQueries | src/datasource.ts:199 | definition of the filter in `query`: each target passing filterQuery, in request order |
| Session.ActiveQueriesMembers | src/datasource.ts:199 | the kept targets are exactly the targets that pass filterQuery, and there are no more of them than targets |
| Session.ActiveQueriesSingle | src/datasource.ts:199 | one target is kept, once, exactly when filterQuery accepts it |
| Session.ActiveQueriesCons | src/datasource.ts:199 | the filter decides the first target by itself and then filters the rest |
| Session.ActiveQueriesConcat | src/datasource.ts:199 | the filter of a concatenation is the concatenation of the filters, so it keeps request order and every repetition |
| Session.RefIds | src/datasource.ts:270 | definition of `activeQueries.map(t => t.refId \|\| t.queryId)`, the list the final push's key joins |
| Session.ReactionListener.constructor | src/datasource.ts:57 | a listener is created for its query id |
| Session.FirstIndex | src/datasource.ts:295 | `indexOf` finds the first occurrence, or -1 exactly when the observer is absent |
| Session.RemoveFirst | src/datasource.ts:295-298 | definition of `indexOf` then `splice(index, 1)` on the observer list, also `refIds.delete(refId)` (line 307) on a duplicate-free set |
| Session.RemoveFirstRemovesOne | src/datasource.ts:295-298 | `splice(indexOf(x), 1)` removes exactly one occurrence when there is one, the first, keeping the rest in order; otherwise it changes nothing |
| Session.AddRef | src/datasource.ts:230 | definition of `refIds.add(refId)` on an insertion-ordered set: appended when absent, unchanged otherwise |
| Session.AddRefDistinct | src/datasource.ts:230 | `Set.add` keeps a refId set free of duplicates and adds the refId |
| Session.RemoveFirstDistinct | src/datasource.ts:307 | `Set.delete` keeps the set free of duplicates and removes exactly that refId |
| Session.Attach | src/datasource.ts:218-240 | definition of one setup-loop iteration on the maps: observer appended, refId bound, builder entry set, listener kept or added |
| Session.Detach | src/datasource.ts:289-316 | definition of the cleanup body for one target |
| Session.DetachAll | src/datasource.ts:289-316 | definition of the cleanup closure: detach every target, in order |
| Session.AttachWellFormed | src/datasource.ts:218-230 | attaching keeps each refId set duplicate-free and no observer list empty |
| Session.DetachBuilders | src/datasource.ts:302 | a detach either keeps the builders or deletes exactly the target's refId |
| Session.DetachWellFormed | src/datasource.ts:288-317 | detaching keeps each refId set duplicate-free and no observer list empty |
| Session.DetachWhileWatched | src/datasource.ts:293-298 | while other observers of the refId remain, a detach removes one occurrence of the observer and changes nothing else |
| Session.DetachLastObserver | src/datasource.ts:299-313 | detaching the last observer removes the refId from the observers, the builders and its query id's set; the query id and its listener go exactly when no other refId stays bound |
| Session.AttachDetachRoundTrip | src/datasource.ts:288-317 | attaching a target with an unused refId and query id, then detaching it, restores the maps |
| Session.Modes | src/datasource.ts:22 | definition of the mode recorded with each builder, by refId |
| Session.Register | src/datasource.ts:218-240 | definition of one setup-loop iteration on the registered ids and modes |
| Session.RegisterAll | src/datasource.ts:216-240 | definition of the setup loop's registrations, target by target |
| Session.AttachRegisters | src/datasource.ts:218-240 | attaching with a builder of the target's mode registers the observer, the binding, the mode and the listener |
| Session.RegisterAllWatches | src/datasource.ts:216-240 | after the setup loop every registered target's observer watches its refId, the refId is bound to its query id, the query id has a listener and the refId a builder, whose mode is that of the last target with that refId |
| Session.OutcomeAt | src/datasource.ts:244 | definition of the answer to the `i`-th target's snapshot request, a rejection when none is given |
| Session.FirstFailure | src/datasource.ts:243-262 | the first target, in request order, whose start-up snapshot is rejected; none exactly when every snapshot succeeds |
| Session.FirstFailurePrefix | src/datasource.ts:262 | a failure found among the first targets is the failure that stops the loop |
| Session.SetupCount | src/datasource.ts:216-264 | the setup loop registers at most the active targets |
| Session.Notify | src/datasource.ts:78-84 | definition of the observer loop: one push per observer, in order, keyed by the refId and carrying the builder's frames and state |
| Session.Responses | src/datasource.ts:74 | definition of what each builder answers to one action: the response `Apply` gives for its state |
| Session.FanOut | src/datasource.ts:66-85 | definition of the pushes of one event: for each bound refId that has a builder, in order, its observers hear its response |
| Session.KeyedByNotify | src/datasource.ts:78-84 | the pushes to one refId's observers all carry that refId as key |
| Session.FanOutByKey | src/datasource.ts:66-85 | the pushes keyed by a refId are exactly one push per observer of that refId carrying its builder's response when the refId is bound and has a builder, and none otherwise; no refId receives another's frames |
| Session.FanOutKeys | src/datasource.ts:66-85 | every push goes to an observer of its key, and its key is a bound refId with a builder |
| Session.FanOutReloadDone | src/datasource.ts:156-176 | every push of a reload reports `Done` |
| Session.Deliver | src/datasource.ts:169-175 | the observer loop pushes one response per observer, in order |
| Session.DataSource.constructor | src/datasource.ts:21-23 | a new data source has four empty maps |
| Session.DataSource.GetOrCreateListener | src/datasource.ts:55-94 | at most one listener per query id: an existing one is returned with nothing created, otherwise a fresh one is stored |
| Session.DataSource.DropBuilder | src/datasource.ts:118-121 | the old builder is cleared and deleted, the other builders keep their state |
| Session.DataSource.AddBuilder | src/datasource.ts:124-127 | a fresh builder of the mode's kind is stored under the refId, the others keep their state |
| Session.DataSource.GetOrCreateBuilder | src/datasource.ts:114-130 | a builder of the same mode is returned unchanged; one of another mode is cleared and replaced by a fresh builder; without one a fresh builder is created; no other builder changes |
| Session.DataSource.ApplyToBuilder | src/datasource.ts:74 | one refId's builder applies the action once and the result is its response |
| Session.DataSource.FanOutStep | src/datasource.ts:67-84 | one refId of the fan-out: its builder applies the action and its observers hear the response; a refId without a builder is skipped |
| Session.DataSource.FanOutAction | src/datasource.ts:59-85 | every builder bound to the query id applies the action exactly once, the others are untouched, and the pushes are the fan-out of their responses; with no bound refId nothing changes and nothing is pushed |
| Session.DataSource.OnChange | src/datasource.ts:57-86 | the listener callback applies a change event to every bound builder once and pushes each response to that refId's observers |
| Session.DataSource.PerformReload | src/datasource.ts:132-193 | ensures the listener; a rejected reload rejects and changes no builder; a delivered snapshot reloads every bound builder once, pushes `Done` to their observers and resolves |
| Session.DataSource.Watch | src/datasource.ts:221-224 | the observer is appended to the refId's list, which is created when missing |
| Session.DataSource.Bind | src/datasource.ts:227-230 | the refId is added to the query id's set, which is created when missing |
| Session.DataSource.RegisterTarget | src/datasource.ts:218-240 | the maps become `Attach` of the target: observer, binding, a builder of the target's mode and a listener |
| Session.DataSource.Reload | src/datasource.ts:244 | performReload on the states it starts from: a rejection keeps every state and pushes nothing; a delivered snapshot reloads exactly the bound builders, keeps the others, and pushes the fan-out of their responses, all `Done` |
| Session.DataSource.SetupTarget | src/datasource.ts:217-250 | one setup iteration registers the target; it fails exactly when a requested start-up snapshot is rejected; otherwise it yields the builder's current frames |
| Session.DataSource.SetupLoop | src/datasource.ts:216-264 | the targets up to the first failure are registered; with no failure the loop completes; a failure ends the pushes with one `Error` push keyed by that target's refId |
| Session.DataSource.Query | src/datasource.ts:195-285 | with no active target a single `Error` push keyed `error` and no map change; otherwise the setup loop's registrations, and a final `Streaming` push keyed by the joined refIds when every target is set up |
| Session.DataSource.ForgetBuilder | src/datasource.ts:302 | the refId's builder entry is deleted without clearing the builder |
| Session.DataSource.DetachTarget | src/datasource.ts:289-316 | the maps become `Detach` of the target |
| Session.DataSource.Cleanup | src/datasource.ts:288-317 | the cleanup closure detaches every active target in order |
| Session.DataSource.Hold | src/datasource.ts:233-237 | getOrCreateBuilder as the setup loop uses it: the refId's entry holds the returned builder with the requested mode |
| Session.DataSource.Activate | src/datasource.ts:378-391 | when no refId is bound to the query id: the refId is bound, its builder kept if it is a replace builder and otherwise a fresh replace builder, no other builder changed, and the listener ensured; otherwise nothing changes |
| Session.DataSource.ReloadSnapshot | src/datasource.ts:374-394 | only when no refId is bound is `refId \|\| queryId` bound with a replace builder (kept or fresh, the others unchanged); then a rejection keeps every state, and a delivered snapshot reloads exactly the bound builders from those states and pushes the fan-out of their responses |
| Session.DataSource.Dispose | src/datasource.ts:365-371 | all four maps are emptied |

## Left out

- Numbers are integers: floating point, NaN and infinities are not modelled, and neither is
  the `JSON.stringify` text of fractional numbers. The model's integers are unbounded and
  exact, whereas a JavaScript number is exact only up to 2^53. So two `Num` values that
  differ in the model can be the same JavaScript number, and `===` in objectsMatch
  (src/builders/ReplaceFrameBuilder.ts:178) can then differ.
- Js.Json writes every digit of an integer, whereas `JSON.stringify` switches to exponent
  form from 1e21 up (`1e+21`). A row holding such a value gets a different key string, and
  so a different row key (src/builders/ReplaceFrameBuilder.ts:152-161).
- `JSON.stringify` string escaping is not modelled; a string value renders as its text in
  quotes.
- `Array.prototype.sort()` compares UTF-16 code units. The model compares characters,
  which differs only between astral characters and U+E000..U+FFFF.
- `toLowerCase` is modelled on ASCII letters only.
- `Object.keys` order (integer-like names first) is taken as the order of the row's properties.
- A row is a plain object. A `null` item in a snapshot, a row that is not an object and
  nested objects as values are not modelled. Nor is the `{ ...row }` copy: rows are values,
  so aliasing between a stored row and the event's row does not arise.
- The SignalR transport is not modelled: the listener's connection, `reload` request and
  `onreconnected` hook (setupReconnectionHandler, src/datasource.ts:96-112). A reconnection
  is a call of `PerformReload`.
- Promises, the 10-second reload timeout and async interleaving are not modelled; a timeout
  is the `Failed` reload answer. The setup loop is taken to complete before the cleanup
  closure.
- The rxjs `Observable`: a push is returned as a `Push` record; `observer.complete()`
  and error messages are not modelled.
- `console.error`/`console.warn` logging is not modelled.
- AppendBuilder.Reload gives every frame of one snapshot the same `now`. createFrameFromRow
  calls `Date.now()` once per frame (src/builders/AppendFrameBuilder.ts:130), so the
  timestamps of one snapshot's frames can differ in the source.
- Js.Get reads a name the row does not have as `undefined`. In JavaScript `row[key]` also
  finds properties inherited from `Object.prototype` (`constructor`, `toString`, ...). So
  where a later row lacks such a name that the first row has, rebuildFrame
  (src/builders/ReplaceFrameBuilder.ts:130) shows the inherited function and the model
  `undefined`; objectsMatch (line 178) likewise reads the inherited value for a candidate
  lacking the target's property of that name.
- Session.DataSource.Query: the outer `catch` of setupQueries (src/datasource.ts:273-282) is
  not modelled, because no modelled step throws. The frames of the final `Streaming` push are
  not stated in the contract, only its key and state.
- Session.DataSource.PerformReload: an exception raised while a builder processes the
  reload data (src/datasource.ts:179-184) is not modelled, because the modelled builders
  do not throw.
- Session.DataSource.Hold states only what the setup loop relies on (it wraps
  GetOrCreateBuilder, whose contract states the whole rule).
- Session.DataSource.Valid does not tie a builder entry's mode to its builder's kind.
- testDatasource, checkHealth, getDefaultQuery, metricFindQuery, the constructor's SignalR URL
  default and the `annotations` field are not part of this model.
- The React query editor, the test mocks and the re-export file are not part of this model.
- Some source operations are split into several methods so that each proof stays small:
  ApplyChange, InsertRow, UpdateRow and DeleteRow in processChange; DropBuilder and
  AddBuilder in getOrCreateBuilder; FanOutStep, ApplyToBuilder and Deliver in the fan-out
  loops; Watch, Bind, RegisterTarget and SetupTarget in the setup loop; DetachTarget,
  ForgetBuilder and SetBookkeeping in the cleanup closure.
