# Location reminders: the in-memory data source and the landmark fixture queue

This project models the two pieces of sequential state logic in the location
reminders Android app that do not depend on the platform. Both live in the
app's test support code.

- **`FakeDataSource`** stands in for the reminder persistence contract. It has
  a nullable list of `ReminderDTO`s and an error-injection flag. It answers
  `getReminders`, `getReminder(id)`, `saveReminder` and `deleteAllReminders`
  through the `Result` envelope, which is either `Success(data)` or
  `Error(message)`. The model is a pure state machine over
  `Source(reminders: Option<seq<ReminderDTO>>, shouldReturnError: bool)`, in
  module `FakeDataSource` (`fake_data_source.dfy`).
- **`FakeDataUsingLondonLandmarks`** is a queue over fifteen fixed London
  landmarks. When it runs empty it is cleared, refilled and shuffled. Each
  `getNextDTOItem` / `getNextDataItem` pops the head and copies it into a
  reminder. The model is in module `LondonLandmarks`
  (`london_landmarks.dfy`). `getItemsCount` is `ItemsCount`.

Supporting modules:

- `Results` (`results.dfy`): `Option` for Kotlin nullables, and the
  `Result` envelope.
- `Reminders` (`reminders.dfy`): `ReminderDTO` and `ReminderDataItem`.
- `Permutations` (`permutations.dfy`): the shuffle, as a series of exchanges.

Modelling choices:

- **Coordinates.** Latitude and longitude are opaque payload. A Kotlin
  `Double` is the `Double(literal)` datatype, which holds the decimal literal
  the fixture writes. Nothing computes on it.
- **Nullable longitude.** A landmark's longitude is non-nullable. A reminder's
  longitude is nullable, so it is copied as `Some(longitude)`.
- **Reminder ids.** Ids are opaque strings. New reminders get a fresh id from
  a default argument of the reminder classes, which are not part of this
  model, so the model takes that id as a parameter.
- **The shuffle.** `shuffle()` is modelled as an arbitrary finite series of
  in-bounds exchanges (`Permutations.Shuffle`), supplied by the caller. No
  particular random generator is assumed.
- **The queue holds positions.** The queue stores each landmark's position in
  the fixture (0 is Big Ben, 14 is The British Museum), and `FixtureAt`
  turns a position into the `Landmark`. Landmarks compare by value, and
  `FixtureAtInjective` proves no two of the fifteen are equal. So a queue of
  positions is the same thing as the source's queue of landmark objects.
- **The fixture text.** Each landmark field is its own function of the
  position: `Title`, `Description`, `Latitude` and `Longitude`. The strings
  are the fixture's own.

## Behaviour worth knowing

- `saveReminder` appends to the list (FakeDataSource.kt line 31), with no
  de-duplication by id. A second reminder with an id already stored is kept,
  but `getReminder` keeps returning the earlier one (`GetReminderAfterSave`).
- A fake cleared with `deleteAllReminders` lists `Success([])` only when its
  list is non-null and the flag is off. The list-screen view-model test does
  exactly that: it uses a default-built fake filled with five reminders
  (RemindersListViewModelTest.kt lines 48-53 and 105-113; `FreshSourceListing`).
  A fake built with a null list answers `Error("Reminders is Null")` forever
  (`NullnessIsFixed`, `DeleteAllThenQuery`).

## Model

| member | source | states |
|---|---|---|
| FakeDataSource.SetReturnError | app/src/test/java/com/udacity/project4/locationreminders/data/FakeDataSource.kt:10-14 | Only the error flag changes; the stored list (or its absence) is kept. |
| FakeDataSource.SetReturnErrorKeepsReminders | app/src/test/java/com/udacity/project4/locationreminders/data/FakeDataSource.kt:12-25 | Changing the flag leaves every `getReminder(id)` answer unchanged. With a non-null list, flag off lists the whole list and flag on gives `Error("Data Error")`. |
| FakeDataSource.GetReminders | app/src/test/java/com/udacity/project4/locationreminders/data/FakeDataSource.kt:16-27 | A null list gives `Error("Reminders is Null")` whatever the flag says. A non-null list with the flag set gives `Error("Data Error")`. Success happens exactly when the list is non-null and the flag is off, and then carries the whole list in order. |
| FakeDataSource.SaveReminder | app/src/test/java/com/udacity/project4/locationreminders/data/FakeDataSource.kt:29-32 | With a non-null list: the length grows by exactly one, every earlier element is unchanged and the new last element is the reminder. A null list stays null. The flag is unchanged. |
| FakeDataSource.FirstIndexOf | app/src/test/java/com/udacity/project4/locationreminders/data/FakeDataSource.kt:36-38 | No position exactly when no reminder has the id. Otherwise it is a position holding the id, and no earlier position holds it. |
| FakeDataSource.GetReminder | app/src/test/java/com/udacity/project4/locationreminders/data/FakeDataSource.kt:34-44 | Success exactly when some stored reminder has the id. The result has that id and is the first such reminder. Every failure is `Error("Reminder not found")`, including for a null list. The flag plays no part. |
| FakeDataSource.DeleteAllReminders | app/src/test/java/com/udacity/project4/locationreminders/data/FakeDataSource.kt:46-49 | A non-null list becomes empty. A null list stays null. The flag is unchanged. |
| FakeDataSource.FirstIndexAfterAppend | app/src/test/java/com/udacity/project4/locationreminders/data/FakeDataSource.kt:31-38 | Appending does not move the first match of an id that was already present. If the id was absent, the only match is the appended element, if it has the id. |
| FakeDataSource.GetReminderAfterSave | app/src/test/java/com/udacity/project4/locationreminders/data/FakeDataSource.kt:29-44 | Lookup after a save: a null list is not found; an earlier match still wins, so nothing is replaced; otherwise the saved reminder is found by its own id and any other id is not found. |
| FakeDataSource.SaveThenGetReminder | app/src/test/java/com/udacity/project4/locationreminders/data/FakeDataSource.kt:29-44 | Round trip: with a non-null list where no reminder has the new id, saving then getting by that id returns exactly the saved reminder, every field equal. |
| FakeDataSource.SaveAllThenGetReminders | app/src/test/java/com/udacity/project4/locationreminders/data/FakeDataSource.kt:16-32 | With a non-null list and the flag off, saving a sequence of reminders and then listing returns the old list followed by the new reminders in insertion order. |
| FakeDataSource.DeleteAllIdempotent | app/src/test/java/com/udacity/project4/locationreminders/data/FakeDataSource.kt:46-49 | Deleting twice is the same as deleting once. |
| FakeDataSource.DeleteAllThenQuery | app/src/test/java/com/udacity/project4/locationreminders/data/FakeDataSource.kt:16-49 | After deleting: with a non-null list and the flag off, listing gives `Success([])`; with a null list, listing gives `Error("Reminders is Null")`; every id is not found. |
| FakeDataSource.NullnessIsFixed | app/src/test/java/com/udacity/project4/locationreminders/data/FakeDataSource.kt:7-49 | No sequence of calls changes whether the list is null. A fake built with a null list lists nothing but `Error("Reminders is Null")`. |
| FakeDataSource.ListingFailsOnlyByFlagOrNull | app/src/test/java/com/udacity/project4/locationreminders/data/FakeDataSource.kt:10-27 | After any sequence of calls, listing fails exactly when the list is null or the flag is set. The flag is the one set by the last `setReturnError` call, or the initial value if there was none. |
| FakeDataSource.FreshSourceListing | app/src/test/java/com/udacity/project4/locationreminders/data/FakeDataSource.kt:7-49 | A fake built with its default argument (an empty list, flag off) lists `Success([])`. After any calls, its listing fails exactly when the last flag setting asks for errors. Filled and then cleared, it lists `Success([])`. |
| Permutations.Shuffle | app/src/sharedTest/java/com/udacity/project4/shared/FakeDataUsingLondonLandmarks.kt:143 | Reordering by any in-bounds exchanges keeps the length and the multiset of elements, and introduces no new element. |
| Permutations.ShuffledPositions | app/src/sharedTest/java/com/udacity/project4/shared/FakeDataUsingLondonLandmarks.kt:23-143 | The shuffled positions 0 .. n-1 have the same multiset as the ordered ones. They have no repetition and contain every position. |
| LondonLandmarks.FixtureAt | app/src/sharedTest/java/com/udacity/project4/shared/FakeDataUsingLondonLandmarks.kt:23-141 | Position i is the i-th landmark added, with its title, description, latitude and longitude verbatim (the per-field functions `Title`, `Description`, `Latitude` and `Longitude`). Every entry has location "London" and non-null title, description and latitude. |
| LondonLandmarks.ItemsCount | app/src/sharedTest/java/com/udacity/project4/shared/FakeDataUsingLondonLandmarks.kt:147 | The count is the queue's length, and it is zero exactly for the empty start-up queue. How the count changes is stated by `Pop` and `PopManyCount`. |
| LondonLandmarks.GenerateShuffledData | app/src/sharedTest/java/com/udacity/project4/shared/FakeDataUsingLondonLandmarks.kt:17-145 | Whatever was queued before, the new queue holds exactly 15 items: every fixture landmark, each once. In other words, a permutation of the fixture. |
| LondonLandmarks.Refilled | app/src/sharedTest/java/com/udacity/project4/shared/FakeDataUsingLondonLandmarks.kt:149-151 | A non-empty queue is left alone. An empty one is refilled to 15 distinct landmarks. |
| LondonLandmarks.Pop | app/src/sharedTest/java/com/udacity/project4/shared/FakeDataUsingLondonLandmarks.kt:149-153 | Takes the former head and leaves exactly the former tail. The count becomes old−1, or 14 when the queue was empty. From a queue with no repetition, the item taken is no longer queued. |
| LondonLandmarks.GetNextDTOItem | app/src/sharedTest/java/com/udacity/project4/shared/FakeDataUsingLondonLandmarks.kt:149-161 | The reminder copies title, description, location, latitude and longitude verbatim from the head of the refilled queue, and carries the fresh id. The queue left behind is that queue's tail. |
| LondonLandmarks.GetNextDataItem | app/src/sharedTest/java/com/udacity/project4/shared/FakeDataUsingLondonLandmarks.kt:163-175 | The same as `GetNextDTOItem`, for the UI reminder type. |
| LondonLandmarks.NextItemsAgree | app/src/sharedTest/java/com/udacity/project4/shared/FakeDataUsingLondonLandmarks.kt:149-175 | Both ways of taking the next item give equal fields and leave the same queue. |
| LondonLandmarks.FixtureAtInjective | app/src/sharedTest/java/com/udacity/project4/shared/FakeDataUsingLondonLandmarks.kt:23-141 | The fifteen landmarks have pairwise different titles, so no landmark appears twice in the fixture. |
| LondonLandmarks.FixtureIsLondonLandmarks | app/src/sharedTest/java/com/udacity/project4/shared/FakeDataUsingLondonLandmarks.kt:23-141 | Every fixture landmark has location "London" and a title from the independently listed title set. |
| LondonLandmarks.HandedOutItemsAreLondonLandmarks | app/src/sharedTest/java/com/udacity/project4/shared/FakeDataUsingLondonLandmarks.kt:149-174 | Every item handed out, of either type, has location "London" and a title from the fixture's title set. |
| LondonLandmarks.PopManyCount | app/src/sharedTest/java/com/udacity/project4/shared/FakeDataUsingLondonLandmarks.kt:147-153 | After n takes from a queue of c items, the count is c−n while n ≤ c, and (15 − (n−c) mod 15) mod 15 after that. |
| LondonLandmarks.EmptyPopManyCount | app/src/sharedTest/java/com/udacity/project4/shared/FakeDataUsingLondonLandmarks.kt:15-153 | From any empty queue, n takes leave (15 − n mod 15) mod 15 items. |
| LondonLandmarks.PopManyKeepsDistinct | app/src/sharedTest/java/com/udacity/project4/shared/FakeDataUsingLondonLandmarks.kt:17-153 | A queue without repetition never gains one, however many items are taken or refills happen. |

## Left out

- The `suspend` calls and the coroutine dispatchers are sequential in effect, so the model is plain functions.
- `getReminders` returns the backing list object itself, so later mutations show through an earlier `Success`. The model has value semantics and does not capture that aliasing.
- The `Result` class's own source is not part of this model. It is modelled as two variants, with the message the fake passes.
- Fresh ids come from the reminder classes' default arguments, whose source is not part of this model. They are a parameter.
- The queue lives in a companion object, which is one piece of mutable state shared by every test. The model passes the queue explicitly as a value.
- The random generator behind `shuffle()` is not modelled. The exchanges are a parameter. The model does not prove that every permutation can arise, only that every outcome is a permutation.
- The Room-backed repository and DAO are not part of this model, nor are the view models, validation, geofence registration and UI screens. The save/get round trip their tests check is stated here for the fake only.
