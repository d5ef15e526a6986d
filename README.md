# Time slot store model

A Dafny model of the time slot store of a reservation front end. The store
keeps an ordered collection of time slots and a two-field filter (colour and
date). It is filled by a snapshot load from the server, then kept up to date
by live update messages. Three derived views are computed from it:

- the filtered slots grouped by date;
- a tally of slots per colour category;
- the sorted list of distinct dates.

The model follows the run-time behaviour of the JavaScript code, not only its
type annotations:

- Server values are raw JSON scalars (`JsValues.RawValue`).
- Alias fields are resolved with JavaScript truthiness (`JsValues.Truthy`,
  `JsValues.Or`), so a 0 or an empty string under the preferred name counts
  as absent.
- Strict equality `===` is datatype equality, so a string id never equals a
  numeric one.
- Property reads on null or undefined, and `startsWith` or `split` on a
  start time that is not a string, throw. The model returns these as
  `Err(TypeError)`.
- Dictionary keys are the `String(v)` coercion of the category
  (`JsValues.PropertyKey`).

Layout:

| file | module | contents |
|---|---|---|
| `js.dfy` | `JsValues` | raw values, truthiness, `\|\|`, property keys |
| `seqs.dfy` | `Seqs` | reversal, first-occurrence de-duplication |
| `strings.dfy` | `Strings` | `startsWith`, `split('T')[0]`, default string order, sorting |
| `totals.dfy` | `Totals` | the sum of the values of a count map |
| `types.dfy` | `TimeSlotTypes` | `Capacity`, `TimeSlot`, `UpdatedSlot`, raw server records and messages |
| `normalize.dfy` | `Normalizer` | the record normaliser and the message-to-update mapping |
| `filter.dfy` | `SlotFilter` | the filter state and the slot filter |
| `grouping.dfy` | `GroupedView` | `groupedTimeSlots`: the filter, then the push-then-reverse fold |
| `tally.dfy` | `ColorCountsView` | `colorCounts` |
| `dates.dfy` | `AvailableDatesView` | `availableDates` |
| `store.dfy` | `TimeSlotStoreModel` | the store class: snapshot load, update, live message, filters |
| `scenarios.dfy` | `Scenarios` | worked examples over concrete records |

The store is a class (`TimeSlotStoreModel.TimeSlotStore`) with the fields
`timeSlots` and `filters`. Its methods change them in place.

- The snapshot load copies the normalised records into an array and reverses
  that array in place (`ReverseInPlace`), proved against `Seqs.Reverse`.
- `UpdateTimeSlot` is the `findIndex` scan as a loop, proved against the
  function `ApplyUpdate`.
- The grouping fold is a loop that pushes and reverses (`GroupedView.GroupFold`),
  proved against the function `GroupInto`.
- The getters receive the store's state as arguments, as Pinia getters
  receive `state`.

Three behaviours of the code are easy to misread, and the model states them
as the code has them:

- **Push-then-reverse is not an overall reversal.** Each step of the
  `groupedTimeSlots` fold is `g := reverse(g + [s])`, so slots a, b, c of one
  date give the group `[c, a, b]`.
  - `GroupedView.PushReverseAt` states the order that results for any input.
  - `GroupedView.PushReverseIsNotReverse` shows it differs from plain
    reversal.
- **A 0 under `currentCapacity` does not count as present.** The live-update
  mapping uses `||`, so a capacity of 0 under `currentCapacity` with no
  `current_capacity` becomes `undefined`
  (`Normalizer.ZeroUpdateBecomesUndefined`).
- **The date check can throw whatever the colour gives.** With a date filter
  set, `startsWith` is called on every slot whatever the colour check gives,
  and the two results are combined only afterwards. A slot whose
  `start_time` is not a string then makes `groupedTimeSlots` throw
  (`GroupedView.GroupedThrows`).

## Model

| member | source | states |
|---|---|---|
| JsValues.Or | src/stores/timeSlotStore.ts:20-31 | `a \|\| b` returns `a` when it is truthy and `b` otherwise; the result is truthy exactly when one operand is |
| JsValues.Truthy | src/stores/timeSlotStore.ts:20-31 | undefined, null, false, 0 and the empty string are falsy, every other scalar is truthy; the meaning `\|\|` relies on |
| JsValues.Nullish | src/stores/timeSlotStore.ts:25 | undefined and null, the values whose property reads throw |
| JsValues.PropertyKey | src/stores/timeSlotStore.ts:101 | a string category indexes the tally under itself; any other value gets a non-empty key ("undefined", "null", "true", decimal digits) |
| JsValues.NumKeysDistinct | src/stores/timeSlotStore.ts:101 | two numeric categories share a tally key only when they are the same number: the sign and every decimal digit are kept |
| Normalizer.NormalizeCapacity | src/stores/timeSlotStore.ts:23-32 | current capacity is the first truthy of `current_capacity` and `current`, else 0; maximum is the first truthy of `max_capacity` and `maximum`, else 50; it throws exactly when the capacity is null or undefined |
| Normalizer.Normalize | src/stores/timeSlotStore.ts:18-33 | id and category copied verbatim; `start_time` is the truthy `start_time` or else `startTime`, likewise `end_time`; it fails exactly when the record is not an object or its capacity read throws |
| Normalizer.NormalizeAll | src/stores/timeSlotStore.ts:18-33 | the map succeeds exactly when every record normalises, keeping length and order; otherwise it reports the first record that throws |
| Normalizer.UpdateFromMessage | src/stores/timeSlotStore.ts:47-51 | id and category copied; the capacity is `currentCapacity` when truthy, else `current_capacity`; a null message throws |
| Normalizer.MaxCapacityAlwaysTruthy | src/stores/timeSlotStore.ts:28-31 | a normalised maximum capacity is never falsy |
| Normalizer.CurrentCapacityTruthyOrZero | src/stores/timeSlotStore.ts:24-27 | a normalised current capacity is truthy or the default 0 |
| Normalizer.AliasesOnly | src/stores/timeSlotStore.ts:18-33 | a record that uses only the alternative names yields their values under the canonical names |
| Normalizer.CapacityDefaults | src/stores/timeSlotStore.ts:23-32 | a capacity carrying none of the names, or a non-null scalar in its place, gets 0 and 50 |
| Normalizer.FalsyValuesFallThrough | src/stores/timeSlotStore.ts:20-31 | a 0 capacity or an empty start time counts as absent: the alias or the default wins |
| Normalizer.NormalizeIdempotent | src/stores/timeSlotStore.ts:18-33 | normalising a canonical record again gives it back, when its timestamps are truthy or undefined |
| Normalizer.ZeroUpdateBecomesUndefined | src/stores/timeSlotStore.ts:49 | a message with `currentCapacity` 0 and no other name sets the capacity to undefined, not 0 |
| SlotFilter.Passes | src/stores/timeSlotStore.ts:78-82 | the colour condition (no colour, or the category strictly equals it) and the date condition (no date, or the start time starts with it) |
| SlotFilter.ColorMatches | src/stores/timeSlotStore.ts:78-79 | no colour matches every slot; a set colour matches exactly the slots whose category is that very string, so a numeric or null category never matches |
| SlotFilter.FilterThrows | src/stores/timeSlotStore.ts:80-81 | a date filter is set and the start time is not a string, so `startsWith` throws |
| SlotFilter.Kept | src/stores/timeSlotStore.ts:77-83 | reference definition: the passing slots in store order |
| SlotFilter.FilterIsKept | src/stores/timeSlotStore.ts:77-83 | a filter that does not throw returns exactly the passing slots, in store order |
| SlotFilter.FilterAppend | src/stores/timeSlotStore.ts:77-83 | the filter of a concatenation is the concatenation of the filters, so kept slots keep their relative order |
| SlotFilter.FilterOne | src/stores/timeSlotStore.ts:77-83 | one slot is kept exactly when it passes |
| SlotFilter.AnyThrowsAppend | src/stores/timeSlotStore.ts:80-81 | a concatenation throws exactly when one of its parts does |
| SlotFilter.Filter | src/stores/timeSlotStore.ts:77-83 | the filter throws exactly when a date filter is set and some start time is not a string; otherwise it keeps each slot that passes, as often as it occurs, and drops the rest (store order: `FilterIsKept`, `FilterAppend`) |
| SlotFilter.FilterKeeps | src/stores/timeSlotStore.ts:77-83 | a slot is in the result exactly when it is in the store and passes the colour and date conditions |
| SlotFilter.FilterAllPass | src/stores/timeSlotStore.ts:77-83 | when every slot passes, the filter returns the collection itself, in order |
| Strings.StartsWith | src/stores/timeSlotStore.ts:81 | `startsWith`: the prefix is no longer than the string and equals its beginning |
| Strings.DateKey | src/stores/timeSlotStore.ts:87 | `split('T')[0]` is a prefix of the timestamp, contains no 'T', and is followed by a 'T' unless it is the whole string |
| Strings.DateKeyBeforeT | src/stores/timeSlotStore.ts:87 | for a date followed by 'T' and a time, the key is the date |
| GroupedView.Key | src/stores/timeSlotStore.ts:87 | the date part of a slot is a prefix of its start time with no 'T' in it, and is followed by a 'T' unless it is the whole start time |
| GroupedView.PushReverse | src/stores/timeSlotStore.ts:88-92 | one group after the fold has met its slots: each step pushes the slot, then reverses the group; length is kept |
| GroupedView.PushReverseAt | src/stores/timeSlotStore.ts:88-92 | after the slots x0..x(n-1) of one date, position j of the group holds x(n-1-2j) in its first half and x(2j-n) after it |
| GroupedView.PushReverseThree | src/stores/timeSlotStore.ts:91-92 | a, b, c in that order give the group [c, a, b] |
| GroupedView.PushReverseIsNotReverse | src/stores/timeSlotStore.ts:91-92 | for distinct a and b, the order of a, b, c differs from reversal |
| GroupedView.PushReverseMultiset | src/stores/timeSlotStore.ts:91-92 | the group holds exactly the slots pushed onto it |
| GroupedView.WithKey | src/stores/timeSlotStore.ts:87 | the folded slots whose date key is k, in order; non-empty exactly when some slot has that key |
| GroupedView.GroupInto | src/stores/timeSlotStore.ts:85-96 | the reduce over the filtered slots: the group of the slot's date, created empty when missing, gets the push-then-reverse step |
| GroupedView.GroupIntoAt | src/stores/timeSlotStore.ts:85-96 | a date is a key exactly when some filtered slot has it, and its group is the push-then-reverse of those slots in filtered order |
| GroupedView.GroupIntoTotal | src/stores/timeSlotStore.ts:85-96 | the group sizes add up to the number of slots folded |
| GroupedView.Grouped | src/stores/timeSlotStore.ts:76-97 | the getter's value: the filter's TypeError, the TypeError of `split` on a start time that is not a string, or the grouped dictionary; `GroupedSound`, `GroupedComplete`, `GroupedTotal` and `GroupedOrder` state what it holds |
| GroupedView.GroupFold | src/stores/timeSlotStore.ts:85-96 | the fold loop builds exactly `GroupInto` of the filtered slots, or throws when a start time is not a string |
| GroupedView.GroupedTimeSlots | src/stores/timeSlotStore.ts:76-97 | the getter returns exactly `Grouped` of the state |
| GroupedView.GroupedThrows | src/stores/timeSlotStore.ts:77-92 | the getter throws exactly when some slot without a string start time is checked by a date filter or passes the colour filter |
| GroupedView.GroupedSound | src/stores/timeSlotStore.ts:77-96 | every grouped slot comes from the store, passes both filters and sits under its own date key |
| GroupedView.GroupedComplete | src/stores/timeSlotStore.ts:77-96 | every slot that passes the filters is in the group of its date |
| GroupedView.GroupedTotal | src/stores/timeSlotStore.ts:77-96 | the group sizes add up to the number of filtered slots |
| GroupedView.GroupedOrder | src/stores/timeSlotStore.ts:85-96 | each group is the push-then-reverse of its slots in filtered order |
| GroupedView.GroupedNoColorMatch | src/stores/timeSlotStore.ts:77-96 | a colour that no slot has yields the empty dictionary, unless a date filter makes `startsWith` throw |
| ColorCountsView.CategoryKey | src/stores/timeSlotStore.ts:101 | `counts[slot.category]` indexes by the category's string form |
| ColorCountsView.Seed | src/stores/timeSlotStore.ts:104-108 | the tally starts with exactly the keys green, yellow and red, each at 0 |
| ColorCountsView.ColorCounts | src/stores/timeSlotStore.ts:98-109 | the reduce over the unfiltered slots from the seed green 0, yellow 0, red 0, adding one under each slot's key; `ColorCountsAt` and `ColorCountsTotal` state what it holds |
| ColorCountsView.CountOfSnoc | src/stores/timeSlotStore.ts:98-109 | one more slot adds one to the count of its own category and nothing to the others |
| ColorCountsView.ColorCountsAt | src/stores/timeSlotStore.ts:98-109 | a key is present exactly when it is green, yellow or red or some slot has that category, and its value is the number of slots with it |
| ColorCountsView.CountOfAbsent | src/stores/timeSlotStore.ts:98-109 | a category no slot has counts 0 |
| ColorCountsView.ColorCountsHasSeed | src/stores/timeSlotStore.ts:104-108 | green, yellow and red are always keys |
| ColorCountsView.ColorCountsTotal | src/stores/timeSlotStore.ts:98-109 | the counts add up to the number of stored slots, with filters ignored |
| ColorCountsView.ColorCountsEmpty | src/stores/timeSlotStore.ts:98-109 | an empty store gives exactly green 0, yellow 0, red 0 |
| Strings.Less | src/stores/timeSlotStore.ts:112 | the default sort order: a proper prefix comes first, otherwise the first differing character decides; irreflexive, transitive and total by `LessIrreflexive`, `LessTransitive` and `LessTotal` |
| Seqs.Dedup | src/stores/timeSlotStore.ts:112 | `[...new Set(keys)]` has no duplicates and holds exactly the elements of the keys |
| Seqs.Reverse | src/stores/timeSlotStore.ts:35 | `reverse()` keeps the length and puts element n-1-i at position i |
| Strings.Sort | src/stores/timeSlotStore.ts:112 | the default sort is a permutation, in ascending string order |
| Strings.StrictlyAscendingUnique | src/stores/timeSlotStore.ts:112 | two strictly ascending lists with the same elements are equal |
| AvailableDatesView.DateKeys | src/stores/timeSlotStore.ts:112 | one date key per stored slot, in order |
| AvailableDatesView.AvailableDates | src/stores/timeSlotStore.ts:111-112 | the getter's value: the date keys, de-duplicated, then sorted, or the TypeError of `split`; `AvailableDatesSpec` states what it holds |
| AvailableDatesView.AvailableDatesSpec | src/stores/timeSlotStore.ts:111-112 | the getter throws exactly when a start time is not a string; otherwise the dates are strictly ascending and are exactly the date keys of the stored slots, whatever the filters |
| AvailableDatesView.AvailableDatesUnique | src/stores/timeSlotStore.ts:111-112 | any strictly ascending list of exactly the slots' dates is the getter's result |
| TimeSlotStoreModel.Snapshot | src/stores/timeSlotStore.ts:14-38 | a load keeps the number of records, element i is the normalised record n-1-i, and a failure names the gateway or the first record that throws |
| TimeSlotStoreModel.FindIndex | src/stores/timeSlotStore.ts:61-63 | -1 exactly when no id strictly equals the given one; otherwise the first index whose id does |
| TimeSlotStoreModel.Apply | src/stores/timeSlotStore.ts:65-67 | the two assignments on one slot: current capacity and category replaced |
| TimeSlotStoreModel.ApplyUpdate | src/stores/timeSlotStore.ts:60-69 | an update keeps the length and the id at every position |
| TimeSlotStoreModel.UpdateNoMatch | src/stores/timeSlotStore.ts:60-64 | an update whose id matches no slot changes nothing |
| TimeSlotStoreModel.UpdateFirstMatch | src/stores/timeSlotStore.ts:61-67 | only the first matching slot changes; in it only the current capacity and the category change; maximum, id, times, other slots and length stay |
| TimeSlotStoreModel.StringIdNeverMatches | src/types/TimeSlot.ts:7-14 | a string update id never strictly equals a numeric slot id, so the store is unchanged |
| TimeSlotStoreModel.UpdateKeepsUniqueIds | src/stores/timeSlotStore.ts:60-69 | ids that were unique remain unique after an update |
| TimeSlotStoreModel.ReverseInPlace | src/stores/timeSlotStore.ts:35 | the array afterwards is the reversal of its old contents |
| TimeSlotStoreModel.TimeSlotStore.constructor | src/stores/timeSlotStore.ts:6-12 | the store starts with no slots and empty colour and date filters |
| TimeSlotStoreModel.TimeSlotStore.FetchTimeSlots | src/stores/timeSlotStore.ts:14-38 | on success the slots become the snapshot; on any failure they are left as they were; the filters are never touched |
| TimeSlotStoreModel.TimeSlotStore.UpdateTimeSlot | src/stores/timeSlotStore.ts:60-69 | the scan-and-assign leaves the slots equal to `ApplyUpdate` of the old slots, and the filters untouched |
| TimeSlotStoreModel.TimeSlotStore.HandleMessage | src/stores/timeSlotStore.ts:45-53 | a message is mapped to an update and applied; a null message throws before anything changes |
| TimeSlotStoreModel.TimeSlotStore.ApplyFilters | src/stores/timeSlotStore.ts:70-73 | both filter fields are set and the slots are untouched |
| Scenarios.AvailableDatesExample | src/stores/timeSlotStore.ts:111-112 | slots on 2024-03-02, 2024-03-01 and 2024-03-02 give exactly ["2024-03-01", "2024-03-02"] |
| Scenarios.ColorCountsExample | src/stores/timeSlotStore.ts:98-109 | two green slots and one with a null category give green 2, yellow 0, red 0 and "null" 1 |
| Scenarios.GroupOrderExample | src/stores/timeSlotStore.ts:76-96 | with no filters, three slots of one date in order a, b, c give the single group [c, a, b] |
| Scenarios.AliasSnapshotExample | src/stores/timeSlotStore.ts:18-35 | two alias-only records load under the canonical names, with defaults filled in, in reverse response order |
| Scenarios.LiveUpdateExample | src/stores/timeSlotStore.ts:47-67 | a message for id 1 replaces that slot's capacity and colour and leaves the other slot as it was |
| Scenarios.StoreScenario | src/stores/timeSlotStore.ts:6-73 | a fresh store loads two alias-only records, a message for id 1 sets its capacity to 7 and its colour to yellow, a null message changes nothing, and the colour filter becomes yellow with the date filter empty |

## Left out

- `src/services/api.ts` is not part of this model. The gateway call is a
  parameter of `FetchTimeSlots` (`Response`). It either gives the parsed
  records or fails with an opaque reason. The HTTP request, the status check
  and the error reshaping around `fetch` are foreign code.
- The wording of the rethrown error (`Error fetching time slots: ...`) is left
  out. The model returns a structured `FetchError` instead, because the text
  is a JavaScript stringification of a foreign error.
- Opening the live-update `EventSource`, its `onerror`, `close` and the
  console log are left out, because they are transport and logging.
  `HandleMessage` starts from the parsed message.
- `JSON.parse` is left out, because it is a foreign call. A message that does
  not parse throws before the handler touches the store, so it changes
  nothing.
- Pinia's `defineStore`, reactivity and the environment base URL are left
  out. They are framework plumbing.
- The asynchronous interleaving of a snapshot load with live updates is left
  out. Each operation is one atomic step on the store.
- JavaScript numbers are modelled as unbounded integers. Fractions, NaN and
  infinities are left out. Numbers matter in three places: to `||` (0 is
  falsy), to the strict `===` on ids in `updateTimeSlot`, and to the
  `String(n)` keys of the tally. The model does not capture double-precision
  rounding. Two integers above 2^53 can compare equal under `===` in
  JavaScript, and print as the same key, but never do in the model.
- Nested objects or arrays as field values, and a response that is not an
  array, are left out, because they are not part of the JSON shapes the
  store reads. A scalar where a record or a capacity object is expected is
  modelled.
- Object.prototype keys are left out. The model treats every key as an
  ordinary own key, in two places where the code does not:
  - In `colorCounts`, a category such as "constructor" or "__proto__" reads
    an inherited property in `counts[slot.category]` (timeSlotStore.ts:101).
  - In `groupedTimeSlots`, a date part such as "constructor" makes
    `!groups[date]` false (timeSlotStore.ts:88). No group is created, and
    `groups[date].push` then throws a TypeError (timeSlotStore.ts:91). The
    model groups such a slot normally and does not produce that TypeError.
- The key order of the returned dictionaries is left out. JavaScript objects
  list string keys in insertion order, so `groupedTimeSlots` lists dates in
  the order the filtered slots first show them, and `colorCounts` starts with
  green, yellow and red. A Dafny `map` has no order, so the model states
  which keys are present and what each holds, not the order in which they
  are listed.
- In-place aliasing of slot objects is left out. In the code, the grouping
  dictionary holds the very slot objects of the store. The model uses
  values, so it does not capture that a later update to a slot is visible
  through a dictionary that was already computed.
- Strings.Less: compares Dafny characters (Unicode code points), while the
  default JavaScript sort compares UTF-16 code units. The two orders differ
  only for characters outside the Basic Multilingual Plane, which dates and
  colour names do not contain.
- Seqs.Dedup: states which elements are kept, not that they keep the order
  of first occurrence, because the only use sorts them at once
  (`AvailableDatesView.AvailableDates`).
- JsValues.PropertyKey: the decimal form of an integer is modelled; the
  JavaScript number-to-string rules for fractions and exponents fall under
  "numbers are integers" above.
