# List component core, modelled in Dafny

A model of the business logic of the item list component in `list.tsx`:

- the **anniversary pass** (`calculateAnniversaryDays`), which writes into every
  display record, in place, the signed number of whole days from now to the
  record's birthday re-anchored to the current year, rounding down;
- the **item shaping** effect, which turns the raw items into display records:
  the item spread as is, `fullName` = name + " " + surname, a copy of the car
  with `cc` forced to 3000, a present message, and `hasNoItems` set when the
  raw list is empty;
- the **delete handler** (`handleIconClick`), which removes one record with
  `splice(index, 1)` and publishes a copy.

Modules: `Outcomes` (Option, Result), `Records` (items, cars, numbers, the
TypeError), `Anniversary`, `Shaping`, `Splice` (the semantics of
`Array.prototype.splice(start, 1)` from ECMAScript), and `List` (the
`ListComponent` class holding `data`, `hasNoItems` and the render-time
`birthdays`).

Behaviour kept as the code has it:

- `calculateAnniversaryDays` has no `return`, so `birthdays` is `undefined`.
  `ListComponent.Render` binds it to `None`. Shaping takes the lookup as a
  parameter. With `None`, an item whose `cc` is a number and whose make is
  "Dacia" reaches `birthdays[item.id]` and throws
  `CannotReadPropertyOfUndefined(id)`. The model returns that error from the
  effect. The program throws it out of the effect callback instead, and the
  framework's handling of it is not modelled (see "Left out").
  Every other item gets "No present", so "Happy birthday 🎉" never appears
  as written. With a defined lookup, the message is "Happy birthday 🎉"
  exactly when the car is a numeric-cc Dacia and the lookup at the item's id
  equals today's day of the month.
- `cc >= 3000 || cc <= 4000` holds for every number. It is false only for
  NaN (`EngineClause`).
- `cc` is forced to 3000 in every record's car; the present condition reads
  the original car.
- A negative delete index counts from the end, and one below `-n` removes
  the first record. An index at or past the end removes nothing. These
  follow the splice algorithm, not only non-negative indices.
- The day count is the floor of the difference in milliseconds. So a
  birthday at today's midnight counts 0 only at midnight and -1 later that
  day. It is not always 0 on the birthday itself.

## Model

| member | source | states |
|---|---|---|
| Anniversary.DaysUntil | list.tsx:38-39 | the day count d satisfies d*86400000 <= diff < (d+1)*86400000, i.e. it is the floor of the difference in days |
| Anniversary.DaysUntilUnique | list.tsx:39 | any integer bracketing the difference that way is the day count (floor, not truncation) |
| Anniversary.MidnightAnniversary | list.tsx:32-39 | an anniversary at today's midnight counts 0 exactly at midnight and -1 at every later instant of the day |
| Anniversary.DaysUntilShift | list.tsx:38-39 | moving the anniversary by k whole days moves the count by exactly k |
| Anniversary.WithAnniversary | list.tsx:31-41 | the annotated item has daysForAnniversary set to the floor day count of its own birthday, and no other field changes |
| Anniversary.CalculateAnniversaryDays | list.tsx:29-43 | every element of the array, in place, becomes its annotated version; the method returns nothing |
| Shaping.EngineClause | list.tsx:79 | the engine-size clause holds exactly when cc is a number (not NaN) |
| Shaping.HasPresent | list.tsx:78-82 | the condition throws exactly for a numeric-cc Dacia with birthdays undefined, with the item's id as the property read; it is true exactly for a numeric-cc Dacia whose lookup equals today |
| Shaping.ShapeItem | list.tsx:73-90 | a record throws exactly when the condition does; otherwise fullName is name + " " + surname, car.cc is 3000 with car id/n/m/d kept, all other fields kept (a well-formed item stays well-formed), present is one of the two messages and is the birthday message exactly when the condition is true |
| Shaping.ShapeAll | list.tsx:70-91 | shaping succeeds exactly when every item does, then gives one record per item in order; otherwise it reports the error of the first item that throws |
| Shaping.ParseItems | list.tsx:70-91 | the push loop computes exactly ShapeAll, stopping at the first throwing item |
| Shaping.FirstThrowUnique | list.tsx:72-91 | when item i is the first to throw, shaping fails with item i's error |
| Shaping.ShapeAllAsWritten | list.tsx:78-89 | with birthdays undefined, shaping succeeds exactly when no item is a numeric-cc Dacia, and then every record says "No present" |
| Shaping.ExampleDaciaItemThrows | list.tsx:79 | the item Ana Pop with a Dacia of cc 1200 throws reading property 1 of undefined |
| Splice.SpliceOne | list.tsx:101 | when the start is inside the list, one element is removed: length drops by one, earlier elements stay, later ones shift down by one, and the multiset loses exactly that element; otherwise the list is unchanged |
| Splice.RemoveValidIndex | list.tsx:101-102 | for 0 <= i < n the result is the list with element i cut out, of length n-1 |
| Splice.PastEndIsNoOp | list.tsx:101 | an index at or past the end leaves the list unchanged |
| Splice.NegativeIndexFromEnd | list.tsx:101 | index -m (1 <= m <= n) removes the same element as index n-m |
| Splice.BelowStartRemovesFirst | list.tsx:101 | an index below -n (n >= 1) is clamped to 0 and removes the first element |
| List.ListComponent.constructor | list.tsx:46-49 | data starts as a fresh empty array (so the mount-time render may annotate it), hasNoItems false, birthdays undefined |
| List.ListComponent.Render | list.tsx:52 | the render annotates every record of data in place and binds birthdays to undefined; hasNoItems is kept |
| List.ListComponent.OnItemsChanged | list.tsx:63-94 | hasNoItems is true exactly when the raw list is empty; data becomes a fresh array of the shaped records; when shaping throws, the error is returned and only the setter that ran before the throw (hasNoItems) has taken effect |
| List.ListComponent.HandleIconClick | list.tsx:98-104 | data becomes a fresh array holding splice(index, 1) of the old records; nothing else changes |

## Left out

- Rendering, JSX, `isLoading`, `useState`/`useEffect` scheduling and the effect with no dependency array that re-fetches on every render (list.tsx:45-61, 106-131): these are UI framework behaviour.
- The catalog fetch and the service handle (list.tsx:2-4, 51, 58): external calls whose code is not part of this model. The raw items are a parameter of `OnItemsChanged`.
- The `App` session gate (list.tsx:134-185): query-string handling, history rewriting, the refresh mutation, and the 24-hour and 1-second timers. These are browser and timer plumbing.
- Date construction (list.tsx:31-36): parsing the birthday string and building the anniversary in local time (DST, Feb-29 rollover, NaN for invalid strings) is host-library behaviour. The anniversary instant is given by a function parameter `anniversaryTime`, and the current instant and today's day of the month are inputs.
- Anniversary.DaysUntil: the JavaScript division is floating point. The model divides integers exactly. The two agree for millisecond differences within the range of real dates.
- Item fields other than the named ones are modelled as a map from key to a small value type. `name`, `surname` and `id` are always present. A missing `car` (which would also throw) is not modelled.
- JsNumber covers integers and NaN. Fractional engine sizes and fractional or non-numeric delete indices are not modelled. The engine clause holds for every real number too.
- List.ListComponent.HandleIconClick: the in-place `splice` also changes the array of the previous state before the copy is published. That aliasing is not modelled. The new state is stated as a fresh array holding the spliced list.
- Anniversary.CalculateAnniversaryDays: JavaScript items are shared objects, and the model holds them as values in an array. The result is the same even when one object appears twice, because each write depends only on that object's own birthday.
- List.ListComponent.OnItemsChanged: the program throws the TypeError out of the effect callback, and the file has no error boundary. What the framework then does (it may unmount the tree) is not modelled. On failure, the post-state only records which setter ran before the throw: `hasNoItems` is set and `data` is not.
- Item.others is not constrained by the type: the `WellFormed` predicate states that it repeats no named key, and `ShapeItem` preserves it, but shaping does not require it.
- `console.log` debug output (list.tsx:80, 99).
