# PlantCare rule layer in Dafny

PlantCare is an Android app for looking after house plants. Users register
and may share plants through a *household*, which they join with a six-digit
join code. Each plant has a watering schedule, with a guard against watering
it again too soon, and a background worker reminds users about plants that are
due. This project models the app's rule layer: the three document types, the
three view models, the watering worker and the validation and state logic of
the add-plant, main and login screens. It proves what each operation does to
the documents and to the screen state.

Layout, one module per file:

| file | module | models |
|---|---|---|
| model.dfy | `Model` | `Plant`, `Household`, `User` and their defaults |
| kotlin_int.dfy | `KotlinInt` | Kotlin `Int` wrap-around and truncating `/` |
| text.dfy | `Text` | `trim`, `isBlank`, `toIntOrNull`, decimal `toString` |
| lists.dfy | `Lists` | `arrayUnion`, `arrayRemove`, `distinct`, `chunked` |
| store.dfy | `Firestore` | the `users`, `households` and `plants` collections, as one class `Store` |
| schedule.dfy | `Schedule` | the watering interval, the early-watering guard, the watering update |
| main_view_model.dfy | `MainViewModel` | `MainViewModel` |
| household_view_model.dfy | `HouseholdViewModel` | `HouseholdViewModel` |
| login_view_model.dfy | `LoginViewModel` | `LoginViewModel` |
| watering_worker.dfy | `WateringWorker` | `WateringWorker.doWork` and the notification text |
| add_plant_screen.dfy | `AddPlantScreen` | `savePlant`, the household drop-down |
| main_screen.dfy | `MainScreen` | `daysUntil`, the title, the menu, swipe and delete confirmation |
| login_screen.dfy | `LoginScreen` | `validateAndSubmit`, the mode toggle |

How the app's environment is represented:

- The store is one object, `Firestore.Store`.
  - Users are a map keyed by document id.
  - Households and plants are sequences kept in ascending document-id order (`Firestore.InIdOrder`). Firestore returns the documents of a query in that order, and the code takes "the first" document a query returns. A new document lands at its id's place (`Firestore.InsertById`); its id is a parameter, so where it lands is as arbitrary as Firestore's random ids.
  - A household's or plant's document id is identified with its `id` field. The code keeps them equal: each document is written with its own id in that field (`viewmodel/HouseholdViewModel.kt:47`, `viewmodel/LoginViewModel.kt:76`, `viewmodel/MainViewModel.kt:79`). So a lookup by `document(id)` is a search on the `id` field (`Firestore.FirstWhere` with `IdField`), the ids of a query's documents are the `id` fields (`Firestore.PlantIds`), and the id order is the order on those fields.
- Each view model and screen is a class with the source's state variables. Its methods take the store calls in the order the callbacks run.
- Things the app gets from its surroundings are parameters. These are:
  - the signed-in uid and the clock (`now`);
  - the random join-code draws and fresh document ids;
  - the success or failure, with its message, of each store or authentication call whose outcome the code listens for.
- A failed write of that kind changes nothing. A write the code issues without a listener is applied unconditionally (see "## Left out").
- A call whose success listener never fires returns `None` in place of the value the callback would have received.

A note on the watering guard. The threshold lies interval / 3 before the due date (`viewmodel/MainViewModel.kt:136-141`), which is 2 days 8 hours for a 7-day plant. So a watering 3 days before such a plant is due is refused. After a watering, the next one is refused until two thirds of the interval have passed, not one third. The model follows the code (`Schedule.SevenDayExample`, `Schedule.RewaterWindow`).

## Model

| member | source | states |
|---|---|---|
| Model.DefaultPlantFields | app/src/main/java/com/family/plantcare/model/Plant.kt:3-17 | `Plant()` has empty id and name, no owner and no household, a 7-day interval and due date 0; it is never watered |
| Model.DefaultPlantHasNoScope | app/src/main/java/com/family/plantcare/model/Plant.kt:10-11 | the defaults alone leave a plant with neither an owner nor a household, so whoever builds a plant must choose one |
| Model.DefaultHouseholdFields | app/src/main/java/com/family/plantcare/model/Household.kt:3-8 | `Household()` has empty id, name and join code and no members |
| Model.DefaultUserFields | app/src/main/java/com/family/plantcare/model/User.kt:3-9 | `User()` has empty id, e-mail and username, no households and the given join date |
| KotlinInt.Wrap32 | app/src/main/java/com/family/plantcare/viewmodel/MainViewModel.kt:136 | the wrapped value is an `Int`, differs from the true value by a multiple of 2^32, and equals the true value when that fits |
| KotlinInt.TruncDiv | app/src/main/java/com/family/plantcare/ui/MainScreen.kt:311 | Kotlin's `/`: the quotient truncated toward zero, bracketed between two multiples of the divisor on the dividend's own side of zero |
| KotlinInt.MulWrapLeft | app/src/main/java/com/family/plantcare/viewmodel/MainViewModel.kt:136 | wrapping an intermediate product does not change the wrapped final product |
| KotlinInt.WrapOnceAboveMax | app/src/main/java/com/family/plantcare/viewmodel/MainViewModel.kt:143 | a product above `Int.MAX_VALUE` and below 2^32 wraps to a negative `Int`, exactly 2^32 less |
| Text.TrimStart | app/src/main/java/com/family/plantcare/ui/LoginScreen.kt:38 | the result is a suffix of the input; only whitespace was dropped and it starts with a non-whitespace character |
| Text.TrimEnd | app/src/main/java/com/family/plantcare/ui/LoginScreen.kt:38 | the result is a prefix of the input; only whitespace was dropped and it ends with a non-whitespace character |
| Text.Trim | app/src/main/java/com/family/plantcare/ui/LoginScreen.kt:38-39 | `trim()` is no longer than its input, and a non-empty result neither starts nor ends with whitespace |
| Text.TrimIsInnerSlice | app/src/main/java/com/family/plantcare/ui/LoginScreen.kt:38-39 | `trim()` is a contiguous slice of its input with only whitespace outside it |
| Text.TrimEnds | app/src/main/java/com/family/plantcare/ui/LoginScreen.kt:38-39 | a non-empty trimmed text neither starts nor ends with whitespace, and starts where the leading whitespace ends |
| Text.TrimEmptyIffBlank | app/src/main/java/com/family/plantcare/ui/AddPlantScreen.kt:57 | `trim().isEmpty()` holds exactly when the text `isBlank()` |
| Text.TrimIdempotent | app/src/main/java/com/family/plantcare/ui/LoginScreen.kt:38-39 | trimming twice gives what trimming once gives |
| Text.NatToDecimal | app/src/main/java/com/family/plantcare/viewmodel/HouseholdViewModel.kt:21 | `Int.toString()` of a non-negative number: at least one digit, and no leading zero |
| Text.ToIntOrNull | app/src/main/java/com/family/plantcare/ui/AddPlantScreen.kt:62 | `toIntOrNull()` gives a value exactly when the text is an optional sign followed by a non-empty run of ASCII digits whose signed value fits in an `Int`; the value is that signed number |
| Text.DigitsValueOfDecimal | app/src/main/java/com/family/plantcare/viewmodel/HouseholdViewModel.kt:21 | the decimal text of a number reads back as that number |
| Text.DecimalRoundTrip | app/src/main/java/com/family/plantcare/notifications/NotificationWorker.kt:84 | `toIntOrNull` inverts `toString` on every non-negative `Int` |
| Text.NegativeDecimalRoundTrip | app/src/main/java/com/family/plantcare/ui/AddPlantScreen.kt:62 | a minus sign and the digits of n read back as -n for every n down to `Int.MIN_VALUE` |
| Text.DecimalOutOfRange | app/src/main/java/com/family/plantcare/ui/AddPlantScreen.kt:62-63 | the digits of a number above `Int.MAX_VALUE` read back as null, and so does their negation below `Int.MIN_VALUE` |
| Text.NatToDecimalInjective | app/src/main/java/com/family/plantcare/viewmodel/HouseholdViewModel.kt:21 | different numbers have different decimal texts |
| Text.DecimalLength | app/src/main/java/com/family/plantcare/viewmodel/HouseholdViewModel.kt:21 | a number has k digits exactly when it lies in [10^(k-1), 10^k) (0 has one) |
| Lists.ArrayUnion | app/src/main/java/com/family/plantcare/viewmodel/HouseholdViewModel.kt:55 | after `arrayUnion(x)` the array holds x and exactly the old elements |
| Lists.ArrayRemove | app/src/main/java/com/family/plantcare/viewmodel/HouseholdViewModel.kt:102 | after `arrayRemove(x)` the array holds every old element except x, and no x at all |
| Lists.ArrayUnionIdempotent | app/src/main/java/com/family/plantcare/viewmodel/HouseholdViewModel.kt:73-75 | a second `arrayUnion` of the same value changes nothing |
| Lists.ArrayUnionKeepsNoDuplicates | app/src/main/java/com/family/plantcare/viewmodel/HouseholdViewModel.kt:73-75 | `arrayUnion` never introduces a duplicate |
| Lists.ArrayRemoveAbsent | app/src/main/java/com/family/plantcare/viewmodel/HouseholdViewModel.kt:102-104 | removing an absent value leaves the array as it was |
| Lists.ArrayRemoveIdempotent | app/src/main/java/com/family/plantcare/viewmodel/HouseholdViewModel.kt:102-104 | a second `arrayRemove` of the same value changes nothing |
| Lists.ArrayRemoveConcat | app/src/main/java/com/family/plantcare/viewmodel/HouseholdViewModel.kt:106 | removal works element by element: it distributes over concatenation, so order is kept |
| Lists.UnionThenRemove | app/src/main/java/com/family/plantcare/viewmodel/HouseholdViewModel.kt:73-104 | removing a value just added to an array that lacked it restores the array |
| Lists.ArrayRemoveKeepsNoDuplicates | app/src/main/java/com/family/plantcare/viewmodel/HouseholdViewModel.kt:102 | `arrayRemove` never introduces a duplicate |
| Lists.Distinct | app/src/main/java/com/family/plantcare/viewmodel/LoginViewModel.kt:85 | `distinct()` keeps exactly the same elements, each once, in the order of their first occurrences |
| Lists.FirstIndex | app/src/main/java/com/family/plantcare/viewmodel/LoginViewModel.kt:85 | the position of an element's first occurrence |
| Lists.DistinctOfNoDuplicates | app/src/main/java/com/family/plantcare/viewmodel/LoginViewModel.kt:85 | `distinct()` of a list without duplicates is that list |
| Lists.DistinctAppend | app/src/main/java/com/family/plantcare/viewmodel/LoginViewModel.kt:85 | `(xs + x).distinct()` is `arrayUnion(x)` applied to `xs.distinct()` |
| Lists.PlusDistinctIsArrayUnion | app/src/main/java/com/family/plantcare/viewmodel/LoginViewModel.kt:85 | `plus(x).distinct()` of a duplicate-free list is `arrayUnion(x)` |
| Lists.FlattenConcat | app/src/main/java/com/family/plantcare/notifications/NotificationWorker.kt:43-48 | flattening distributes over concatenation |
| Lists.Chunked | app/src/main/java/com/family/plantcare/notifications/NotificationWorker.kt:43 | `chunked(n)`: every chunk has 1 to n elements, all but the last exactly n, and there are none exactly when the list is empty |
| Lists.FlattenChunked | app/src/main/java/com/family/plantcare/notifications/NotificationWorker.kt:43 | the chunks, joined in order, are the original list |
| Lists.InFlatten | app/src/main/java/com/family/plantcare/notifications/NotificationWorker.kt:44-48 | a value is in the flattened list exactly when it is in some chunk |
| Firestore.IdBeforeIrreflexive | app/src/main/java/com/family/plantcare/viewmodel/HouseholdViewModel.kt:71 | no document id comes before itself |
| Firestore.IdBeforeTransitive | app/src/main/java/com/family/plantcare/viewmodel/HouseholdViewModel.kt:71 | the document-id order is transitive |
| Firestore.IdBeforeTotal | app/src/main/java/com/family/plantcare/viewmodel/HouseholdViewModel.kt:71 | of two different ids one comes first |
| Firestore.InIdOrderUnique | app/src/main/java/com/family/plantcare/viewmodel/HouseholdViewModel.kt:71 | documents held in id order have distinct ids |
| Firestore.InsertById | app/src/main/java/com/family/plantcare/viewmodel/HouseholdViewModel.kt:44-53 | a document created under a new id joins the collection, which keeps all its other documents |
| Firestore.InsertByIdInOrder | app/src/main/java/com/family/plantcare/viewmodel/HouseholdViewModel.kt:44-53 | creating a document under an id no document has keeps the collection in id order |
| Firestore.QueryPlants | app/src/main/java/com/family/plantcare/viewmodel/MainViewModel.kt:107-115 | a query returns exactly the stored plants that match it |
| Firestore.QueryConcat | app/src/main/java/com/family/plantcare/viewmodel/MainViewModel.kt:107-115 | a query keeps the store's order, so results come in document-id order |
| Firestore.SetPlantDoc | app/src/main/java/com/family/plantcare/viewmodel/MainViewModel.kt:150 | writing an existing id replaces that document in place, keeping every position's id; writing a new id creates the document at its id's place |
| Firestore.SetPlantDocEffect | app/src/main/java/com/family/plantcare/viewmodel/MainViewModel.kt:150 | `document(id).set(p)` leaves p stored, drops the old document with that id, keeps every other one, and keeps the id order |
| Firestore.RemovePlantDoc | app/src/main/java/com/family/plantcare/viewmodel/MainViewModel.kt:123-125 | deleting by id keeps exactly the plants with other ids |
| Firestore.RemovePlantDocConcat | app/src/main/java/com/family/plantcare/viewmodel/MainViewModel.kt:125 | `filterNot { it.id == id }` distributes over concatenation, so the surviving plants keep their order |
| Firestore.RemovePlantDocKeepsOrder | app/src/main/java/com/family/plantcare/viewmodel/MainViewModel.kt:123 | deleting a plant keeps the plants in id order |
| Firestore.PlantsOutside | app/src/main/java/com/family/plantcare/viewmodel/HouseholdViewModel.kt:110-114 | the plants left after a household's plants are deleted: exactly those of other households or none |
| Firestore.PlantIds | app/src/main/java/com/family/plantcare/viewmodel/HouseholdViewModel.kt:112-113 | the ids of the plants a query returned, position by position |
| Firestore.RemoveAllIds | app/src/main/java/com/family/plantcare/viewmodel/HouseholdViewModel.kt:112-114 | deleting a list of ids keeps exactly the plants with other ids |
| Firestore.RemoveOneMoreId | app/src/main/java/com/family/plantcare/viewmodel/HouseholdViewModel.kt:112-114 | one more pass of the deletion loop deletes one more id |
| Firestore.RemoveAllIdsIsPlantsOutside | app/src/main/java/com/family/plantcare/viewmodel/HouseholdViewModel.kt:110-114 | deleting exactly the ids of a household's plants leaves the plants outside that household |
| Firestore.HouseholdPlantIds | app/src/main/java/com/family/plantcare/viewmodel/HouseholdViewModel.kt:110-114 | deleting the ids the `householdId` query returns removes exactly that household's plants |
| Firestore.PlantsOutsideKeepsOrder | app/src/main/java/com/family/plantcare/viewmodel/HouseholdViewModel.kt:110-114 | deleting a household's plants keeps the rest in id order |
| Firestore.FirstWhere | app/src/main/java/com/family/plantcare/viewmodel/HouseholdViewModel.kt:68-71 | `whereEqualTo(f, v)` then `documents.first()`: the first household in id order whose field matches, or none exactly when none matches |
| Firestore.UpdateMembers | app/src/main/java/com/family/plantcare/viewmodel/HouseholdViewModel.kt:73 | `update("members", u)` changes only the members of the household with that id; ids, names, join codes and the other households stay; a missing id changes nothing |
| Firestore.RemoveHouseholdDoc | app/src/main/java/com/family/plantcare/viewmodel/HouseholdViewModel.kt:159 | deleting a household keeps exactly the households with other ids |
| Firestore.RemoveHouseholdDocKeepsOrder | app/src/main/java/com/family/plantcare/viewmodel/HouseholdViewModel.kt:159 | deleting a household keeps the households in id order |
| Firestore.UpdateUserHouseholds | app/src/main/java/com/family/plantcare/viewmodel/HouseholdViewModel.kt:54-55 | updating a user's `households` never creates or deletes a user document; the user's list becomes the update applied to the old list, every other field of that user is unchanged, and every other user is unchanged |
| Firestore.Store.SetPlant | app/src/main/java/com/family/plantcare/viewmodel/MainViewModel.kt:150 | writes the plant under its id and touches no other collection |
| Firestore.Store.DeletePlant | app/src/main/java/com/family/plantcare/viewmodel/MainViewModel.kt:123 | deletes the plant document with that id and touches no other collection |
| Firestore.Store.AddHousehold | app/src/main/java/com/family/plantcare/viewmodel/HouseholdViewModel.kt:53 | creates a household under a fresh id at its id's place, keeping the id order |
| Firestore.Store.UpdateHouseholdMembers | app/src/main/java/com/family/plantcare/viewmodel/HouseholdViewModel.kt:73 | applies an array update to the members of the household with that id |
| Firestore.Store.DeleteHousehold | app/src/main/java/com/family/plantcare/viewmodel/HouseholdViewModel.kt:159 | deletes the household document with that id |
| Firestore.Store.SetUser | app/src/main/java/com/family/plantcare/viewmodel/LoginViewModel.kt:56-57 | writes the user under its own id |
| Firestore.Store.UpdateUser | app/src/main/java/com/family/plantcare/viewmodel/HouseholdViewModel.kt:54-55 | applies an array update to one user's households |
| Schedule.EffectiveWateringDays | app/src/main/java/com/family/plantcare/viewmodel/MainViewModel.kt:135 | a positive `wateringDays` is kept and any other counts as 7 |
| Schedule.IntervalMillis | app/src/main/java/com/family/plantcare/viewmodel/MainViewModel.kt:143 | the interval is exactly `days` whole days of milliseconds (no wrap-around) |
| Schedule.PlantInterval | app/src/main/java/com/family/plantcare/viewmodel/MainViewModel.kt:135-136 | a plant's interval is at least one day |
| Schedule.Threshold | app/src/main/java/com/family/plantcare/viewmodel/MainViewModel.kt:136 | the threshold lies within the last interval before the due date, exactly 8 hours per interval day before it |
| Schedule.TooEarly | app/src/main/java/com/family/plantcare/viewmodel/MainViewModel.kt:138-141 | the guard never refuses at or after the due date or a never-watered plant, and always refuses a watered plant a whole interval or more before its due date |
| Schedule.Watered | app/src/main/java/com/family/plantcare/viewmodel/MainViewModel.kt:143-148 | the accepted update: due one interval after `now`, last watered `now`, counter up by one, every other field unchanged |
| Schedule.NeverWateredIsAccepted | app/src/main/java/com/family/plantcare/viewmodel/MainViewModel.kt:139-141 | a plant never watered is accepted at any time |
| Schedule.GuardBoundary | app/src/main/java/com/family/plantcare/viewmodel/MainViewModel.kt:136-141 | a plant watered before is refused exactly when `now < nextWateringDate - (days * 86400000) / 3` |
| Schedule.RewaterWindow | app/src/main/java/com/family/plantcare/viewmodel/MainViewModel.kt:136-148 | after an accepted watering, the next one is refused exactly until two thirds of the interval have passed |
| Schedule.NoDoubleWatering | app/src/main/java/com/family/plantcare/viewmodel/MainViewModel.kt:136-148 | a second watering at the same moment is refused |
| Schedule.SevenDayExample | app/src/main/java/com/family/plantcare/viewmodel/MainViewModel.kt:136-141 | an illustration: a 7-day plant is refused 3 days before it is due and accepted from 2 days 8 hours before, inclusive |
| Schedule.IntervalMillisInt32 | app/src/main/java/com/family/plantcare/viewmodel/MainViewModel.kt:143 | the as-written `Int` product always fits in an `Int` |
| Schedule.Int32IntervalNegative | app/src/main/java/com/family/plantcare/viewmodel/MainViewModel.kt:143 | from 25 to 49 days the as-written product is negative, the true interval less 2^32 |
| Schedule.Int32IntervalIsWrapped | app/src/main/java/com/family/plantcare/viewmodel/MainViewModel.kt:136 | the as-written product is the true interval wrapped to 32 bits |
| Schedule.Int32IntervalCorrectIff | app/src/main/java/com/family/plantcare/viewmodel/MainViewModel.kt:143 | the as-written product is right exactly for intervals of at most 24 days |
| Schedule.Int32IntervalAt25Days | app/src/main/java/com/family/plantcare/viewmodel/MainViewModel.kt:143 | at 25 days the as-written product is -2134967296 |
| Schedule.ThresholdAsWritten | app/src/main/java/com/family/plantcare/viewmodel/MainViewModel.kt:136 | whatever the interval, the as-written threshold is within 715827882 ms (about 8.3 days) of the due date |
| Schedule.WateredAsWritten | app/src/main/java/com/family/plantcare/viewmodel/MainViewModel.kt:143-148 | the as-written update: last watered `now`, counter up by one, other fields kept, and a due date within `Int` range of `now` |
| Schedule.AsWrittenAgreesUpTo24Days | app/src/main/java/com/family/plantcare/viewmodel/MainViewModel.kt:136-148 | up to 24 days the as-written threshold and update equal the corrected ones |
| Schedule.AsWrittenBreaksAt25Days | app/src/main/java/com/family/plantcare/viewmodel/MainViewModel.kt:136-148 | at 25 days the as-written update sets the next due date in the past and the guard then refuses nothing later |
| MainViewModel.PlantsQuery | app/src/main/java/com/family/plantcare/viewmodel/MainViewModel.kt:107-110 | no household selects `ownerId == uid`; a household selects `householdId == h` |
| MainViewModel.PrivatePlantOnlyInPrivateView | app/src/main/java/com/family/plantcare/viewmodel/MainViewModel.kt:107-110 | a private plant shows in its owner's private list and in no household's list |
| MainViewModel.MainViewModel.LoadUserData | app/src/main/java/com/family/plantcare/viewmodel/MainViewModel.kt:41-49 | with a user signed in and the read done: the loaded user (none if the document is missing), then the private plants |
| MainViewModel.MainViewModel.LoadPlants | app/src/main/java/com/family/plantcare/viewmodel/MainViewModel.kt:104-118 | the selection is always recorded; the list becomes the query's result only when a user is signed in and a snapshot arrives |
| MainViewModel.MainViewModel.DeletePlant | app/src/main/java/com/family/plantcare/viewmodel/MainViewModel.kt:120-131 | a successful delete removes the document and filters the cached list by id; a failed one changes neither |
| MainViewModel.MainViewModel.AddPlant | app/src/main/java/com/family/plantcare/viewmodel/MainViewModel.kt:77-80 | stores a copy of the plant whose id is the fresh document id |
| MainViewModel.MainViewModel.MarkPlantWatered | app/src/main/java/com/family/plantcare/viewmodel/MainViewModel.kt:133-152 | returns true exactly when the guard lets the watering through; then writes the updated plant under its id, otherwise writes nothing |
| HouseholdViewModel.JoinCode | app/src/main/java/com/family/plantcare/viewmodel/HouseholdViewModel.kt:20-22 | a code drawn from 100000..999999 has exactly six digits and reads back as the draw |
| HouseholdViewModel.JoinCodeInjective | app/src/main/java/com/family/plantcare/viewmodel/HouseholdViewModel.kt:20-22 | two draws give the same code exactly when they are equal |
| HouseholdViewModel.EnsureUniqueJoinCode | app/src/main/java/com/family/plantcare/viewmodel/HouseholdViewModel.kt:24-34 | a returned code has six digits, is no household's code and is the first free draw; no code exactly when every draw collides |
| HouseholdViewModel.NewHousehold | app/src/main/java/com/family/plantcare/viewmodel/HouseholdViewModel.kt:44-51 | the created household has the new id, the name and the code, and the creator as its only member, once |
| HouseholdViewModel.JoinState | app/src/main/java/com/family/plantcare/viewmodel/HouseholdViewModel.kt:66-79 | an unknown code changes nothing; otherwise the user is a member of the first household with the code, which is in the user's list. That household's members become the union of the old members with the user, and no other household changes. The user's list becomes the union of the old list with the household's id, the user's other fields are unchanged, and every other user is unchanged |
| HouseholdViewModel.JoinIdempotent | app/src/main/java/com/family/plantcare/viewmodel/HouseholdViewModel.kt:70-79 | joining twice with the same code leaves the state one join leaves |
| HouseholdViewModel.UpdateMembersUnionTwice | app/src/main/java/com/family/plantcare/viewmodel/HouseholdViewModel.kt:73 | adding a member twice is adding it once |
| HouseholdViewModel.FirstWhereSameKeys | app/src/main/java/com/family/plantcare/viewmodel/HouseholdViewModel.kt:68-71 | changing members does not change which household a join code finds |
| HouseholdViewModel.JoinThenLeave | app/src/main/java/com/family/plantcare/viewmodel/HouseholdViewModel.kt:73-104 | leaving undoes joining for a user who was not yet a member |
| HouseholdViewModel.UnlinkAll | app/src/main/java/com/family/plantcare/viewmodel/HouseholdViewModel.kt:145-148 | unlinking members never creates or deletes a user document |
| HouseholdViewModel.UnlinkAllEffect | app/src/main/java/com/family/plantcare/viewmodel/HouseholdViewModel.kt:145-148 | each listed member loses the household id, every other user is unchanged |
| HouseholdViewModel.HouseholdViewModel.CreateHousehold | app/src/main/java/com/family/plantcare/viewmodel/HouseholdViewModel.kt:36-64 | nobody signed in: nothing; blank name: its error only; otherwise the new household with the first free code and the creator as sole member, and success only after the creator is linked |
| HouseholdViewModel.HouseholdViewModel.JoinHouseholdByCode | app/src/main/java/com/family/plantcare/viewmodel/HouseholdViewModel.kt:66-86 | an unknown code or failed query sets its error and changes no document; a known code adds the user to the first such household and, once the user is linked, reaches the join state |
| HouseholdViewModel.HouseholdViewModel.DeleteHouseholdPlants | app/src/main/java/com/family/plantcare/viewmodel/HouseholdViewModel.kt:110-114 | the deletion loop leaves exactly the plants outside the household |
| HouseholdViewModel.HouseholdViewModel.LeaveHousehold | app/src/main/java/com/family/plantcare/viewmodel/HouseholdViewModel.kt:88-128 | the user and the household are unlinked; the household and its plants are deleted exactly when no other member was listed |
| HouseholdViewModel.HouseholdViewModel.DeleteHousehold | app/src/main/java/com/family/plantcare/viewmodel/HouseholdViewModel.kt:131-172 | a missing household reports false and changes nothing; otherwise every listed member is unlinked, the plants are deleted, and the household goes when its deletion succeeds |
| LoginViewModel.RegisteredUser | app/src/main/java/com/family/plantcare/viewmodel/LoginViewModel.kt:29-32 | the saved user carries the uid, e-mail, username, join date and given household list |
| LoginViewModel.RegistrationHousehold | app/src/main/java/com/family/plantcare/viewmodel/LoginViewModel.kt:76 | a household created at registration has the new id, the name, the user as sole member and an empty join code |
| LoginViewModel.RegistrationMembers | app/src/main/java/com/family/plantcare/viewmodel/LoginViewModel.kt:85 | the joined household's members are the old members and the user, each once |
| LoginViewModel.RegistrationJoinIsUnion | app/src/main/java/com/family/plantcare/viewmodel/LoginViewModel.kt:85-87 | for a duplicate-free member list, joining at registration writes what joining by code writes |
| LoginViewModel.LoginViewModel.LoginUser | app/src/main/java/com/family/plantcare/viewmodel/LoginViewModel.kt:42-53 | loading ends either way; success signs in, failure stores the message |
| LoginViewModel.LoginViewModel.SaveUser | app/src/main/java/com/family/plantcare/viewmodel/LoginViewModel.kt:55-66 | loading ends either way; a successful write stores the user under its id, a failed one stores the message |
| LoginViewModel.LoginViewModel.CreateOrJoinHousehold | app/src/main/java/com/family/plantcare/viewmodel/LoginViewModel.kt:68-93 | no household of that name: a new one and `[newId]`; otherwise the first one gets the distinct members and `[itsId]`; nothing without both outcomes |
| LoginViewModel.LoginViewModel.RegisterUser | app/src/main/java/com/family/plantcare/viewmodel/LoginViewModel.kt:23-40 | failure ends loading with the message; a blank household name saves the user with no households; otherwise the user is saved with exactly the created or joined household's id |
| WateringWorker.ConcatQueries | app/src/main/java/com/family/plantcare/notifications/NotificationWorker.kt:44-49 | the chunk queries return stored household plants only, and nothing when there are no chunks |
| WateringWorker.ConcatQueriesMembership | app/src/main/java/com/family/plantcare/notifications/NotificationWorker.kt:44-49 | the chunk queries collect exactly the plants of households listed in some chunk |
| WateringWorker.UserHouseholds | app/src/main/java/com/family/plantcare/notifications/NotificationWorker.kt:30-32 | the user document's household list, or none when the document is missing |
| WateringWorker.WorkerPlants | app/src/main/java/com/family/plantcare/notifications/NotificationWorker.kt:34-53 | the combined list starts with the private plants, holds only stored plants, and is just the private plants when the user has no households |
| WateringWorker.HouseholdPlantsCollected | app/src/main/java/com/family/plantcare/notifications/NotificationWorker.kt:41-50 | chunking loses no household: a household plant is collected exactly when its household is one of the user's |
| WateringWorker.WorkerPlantsMembership | app/src/main/java/com/family/plantcare/notifications/NotificationWorker.kt:34-53 | a plant is in the combined list exactly when it is the user's own or in one of the user's households |
| WateringWorker.ChunkQueriesCover | app/src/main/java/com/family/plantcare/notifications/NotificationWorker.kt:42-43 | the chunks hold 1 to 10 ids each, cover every id once in order, and there are none without households |
| WateringWorker.DuePlants | app/src/main/java/com/family/plantcare/notifications/NotificationWorker.kt:55 | the due plants are exactly those with `nextWateringDate <= now` (inclusive) |
| WateringWorker.DuePlantsConcat | app/src/main/java/com/family/plantcare/notifications/NotificationWorker.kt:55 | the filter distributes over concatenation, so the due plants keep the list's order |
| WateringWorker.DuePlantsSingle | app/src/main/java/com/family/plantcare/notifications/NotificationWorker.kt:55 | a single plant is kept exactly when it is due |
| WateringWorker.DuePlantsMultiplicity | app/src/main/java/com/family/plantcare/notifications/NotificationWorker.kt:53-55 | every copy of a due plant is kept and no copy of another, so a plant collected twice is counted twice in the reminder |
| WateringWorker.Names | app/src/main/java/com/family/plantcare/notifications/NotificationWorker.kt:58 | the names, position by position |
| WateringWorker.Reminder | app/src/main/java/com/family/plantcare/notifications/NotificationWorker.kt:57-59 | no reminder exactly when no plant is due; otherwise the due plants' names, in list order |
| WateringWorker.NotificationText | app/src/main/java/com/family/plantcare/notifications/NotificationWorker.kt:81-85 | the text starts "Time to water " exactly when one plant is due |
| WateringWorker.NotificationTextShape | app/src/main/java/com/family/plantcare/notifications/NotificationWorker.kt:81-85 | one plant is named in the text; otherwise the text carries a count that reads back as the number of due plants |
| WateringWorker.WateredPlantNotDue | app/src/main/java/com/family/plantcare/notifications/NotificationWorker.kt:55 | a plant just watered is not due, and is due again once its interval has passed |
| WateringWorker.DoWork | app/src/main/java/com/family/plantcare/notifications/NotificationWorker.kt:24-65 | always success; nobody signed in or a failed read: no reminder; otherwise the chunk queries issued are the chunks of the user's households, in order, and the reminder is that of the combined list |
| AddPlantScreen.SaveError | app/src/main/java/com/family/plantcare/ui/AddPlantScreen.kt:56-66 | a blank name fails first; then a non-number or non-positive day count; no error exactly when both pass |
| AddPlantScreen.NewPlant | app/src/main/java/com/family/plantcare/ui/AddPlantScreen.kt:69-75 | exactly one of owner and household is set, as chosen; trimmed name; first due date one interval ahead; interval left at 7; never watered; the image text |
| AddPlantScreen.NewPlantAsWritten | app/src/main/java/com/family/plantcare/ui/AddPlantScreen.kt:73 | as written the due date adds the `Int` product; it agrees with the corrected plant exactly for at most 24 days, and differs in nothing else |
| AddPlantScreen.NewPlantAsWrittenStartsOverdue | app/src/main/java/com/family/plantcare/ui/AddPlantScreen.kt:73 | as written, a plant saved with 25 to 49 days is due before it was created, while the corrected one is due after |
| AddPlantScreen.NewPlantScheduleUsesDefault | app/src/main/java/com/family/plantcare/ui/AddPlantScreen.kt:69-75 | a new plant may be watered at once, and every accepted watering then schedules 7 days ahead, whatever was typed |
| AddPlantScreen.HouseholdOptions | app/src/main/java/com/family/plantcare/ui/AddPlantScreen.kt:45 | the options are "private" followed by the user's households in order |
| AddPlantScreen.OptionLabel | app/src/main/java/com/family/plantcare/ui/AddPlantScreen.kt:212-221 | "Private" for no household, the household id otherwise |
| AddPlantScreen.OptionLabels | app/src/main/java/com/family/plantcare/ui/AddPlantScreen.kt:219-221 | the first option reads "Private" and each other one its household id |
| AddPlantScreen.AddPlantForm.SavePlant | app/src/main/java/com/family/plantcare/ui/AddPlantScreen.kt:55-80 | the error is the first failing check; a plant is added exactly when both checks pass and a user is loaded, and it is the constructed plant under the fresh id |
| MainScreen.DaysUntil | app/src/main/java/com/family/plantcare/ui/MainScreen.kt:309-312 | never negative; for a future date the whole days until it, truncated; 0 for a past one |
| MainScreen.DaysUntilZeroIff | app/src/main/java/com/family/plantcare/ui/MainScreen.kt:309-312 | a card shows 0 days exactly when the plant is due within the next 24 hours |
| MainScreen.DaysUntilAfterWatering | app/src/main/java/com/family/plantcare/ui/MainScreen.kt:185 | right after a watering the card shows the plant's interval in days |
| MainScreen.Title | app/src/main/java/com/family/plantcare/ui/MainScreen.kt:72-75 | "Your Plants" exactly when no household is selected, "Household Plants" exactly when one is |
| MainScreen.MenuItems | app/src/main/java/com/family/plantcare/ui/MainScreen.kt:86-108 | the private item first, one item per household of the loaded user in order, then the create/join item last |
| MainScreen.MenuText | app/src/main/java/com/family/plantcare/ui/MainScreen.kt:87-103 | only a household item's text starts "Household: ", followed by the household id |
| MainScreen.MenuTextInjective | app/src/main/java/com/family/plantcare/ui/MainScreen.kt:87-103 | two menu items show the same text exactly when they are the same item |
| MainScreen.LoadTarget | app/src/main/java/com/family/plantcare/ui/MainScreen.kt:88-106 | "Private" loads `null`, a household item loads its id, the last item loads nothing |
| MainScreen.MenuSelectionTitle | app/src/main/java/com/family/plantcare/ui/MainScreen.kt:72-100 | choosing an item puts the matching title on screen |
| MainScreen.PlantListState.OnSwipe | app/src/main/java/com/family/plantcare/ui/MainScreen.kt:217-233 | as written: no row is ever dismissed and no swipe waters a plant; a left swipe records the plant for confirmation |
| MainScreen.PlantListState.OnSwipeIntended | app/src/main/java/com/family/plantcare/ui/MainScreen.kt:217-233 | as intended: a right swipe waters the plant, a left swipe records it for confirmation, none dismisses |
| MainScreen.PlantListState.ConfirmDelete | app/src/main/java/com/family/plantcare/ui/MainScreen.kt:290-297 | confirming clears the prompt and hands its plant to `onDelete` |
| MainScreen.PlantListState.ClosePrompt | app/src/main/java/com/family/plantcare/ui/MainScreen.kt:287-302 | cancel and dismiss clear the prompt |
| LoginScreen.ValidationError | app/src/main/java/com/family/plantcare/ui/LoginScreen.kt:38-45 | each message exactly when its check is the first to fail, in the form's order; none exactly when all pass |
| LoginScreen.ValidationErrorBlank | app/src/main/java/com/family/plantcare/ui/LoginScreen.kt:42-45 | the e-mail and username checks are blankness checks on the raw fields |
| LoginScreen.SubmissionFor | app/src/main/java/com/family/plantcare/ui/LoginScreen.kt:47-51 | register sends the trimmed e-mail, raw password, trimmed username and trimmed household; login the trimmed e-mail and raw password |
| LoginScreen.UsernameIgnoredWhenLoggingIn | app/src/main/java/com/family/plantcare/ui/LoginScreen.kt:45 | in login mode the username does not affect validation |
| LoginScreen.PasswordOnlyLengthMatters | app/src/main/java/com/family/plantcare/ui/LoginScreen.kt:44 | validation sees only the password's raw length: two passwords of one length are judged alike |
| LoginScreen.SubmittedRegistrationIsComplete | app/src/main/java/com/family/plantcare/ui/LoginScreen.kt:38-48 | a submitted registration has a non-empty username without surrounding whitespace, a well-formed e-mail and a password of at least 6 characters |
| LoginScreen.BlankHouseholdFieldIsBlankName | app/src/main/java/com/family/plantcare/ui/LoginScreen.kt:48 | a household field of spaces reaches registration as an empty name |
| LoginScreen.PasswordLengthCountsSpaces | app/src/main/java/com/family/plantcare/ui/LoginScreen.kt:44 | an illustration: five spaces and a letter pass the length check |
| LoginScreen.LoginForm.ValidateAndSubmit | app/src/main/java/com/family/plantcare/ui/LoginScreen.kt:36-54 | clears the error, sets the first failing check's message, otherwise makes the register or login call; the fields are unchanged |
| LoginScreen.LoginForm.ToggleMode | app/src/main/java/com/family/plantcare/ui/LoginScreen.kt:136-139 | flips the mode and clears the error |

## Left out

- Writes without a listener are applied unconditionally; the model has no outcome parameter for them and cannot represent their failure. These are the join's members update (`viewmodel/HouseholdViewModel.kt:73`), leave's two updates (`:100-102`), the plant deletions (`:112`, `:154`), the member unlinks (`:145-148`), `addPlant`'s set (`viewmodel/MainViewModel.kt:79`) and `markPlantWatered`'s set (`viewmodel/MainViewModel.kt:150`). So, for example, a join whose members update fails while the user update succeeds, which leaves the user listing a household that does not list them, is not represented.
- Firebase Authentication, Firestore and Storage are not modelled as services. The store is one in-memory object, and each call's outcome is a parameter.
- Callbacks run one after another in the order the code registers them. Interleavings of listeners are not modelled, and neither are live snapshot subscriptions beyond their first snapshot.
- The clock, the random join-code draws and fresh document ids are parameters.
- PlantNet identification (`identifyPlant`), the image upload (`uploadImageAndGetUrl`) and `loadPlantCareInfo`: network, storage and file I/O. `PlantCareInfo` has no behaviour, so it is not modelled either.
- Building notification channels, checking permissions and posting notifications: platform plumbing. WorkManager scheduling (MainActivity.kt) also belongs here.
- MainActivity.kt and HouseholdScreen.kt only wire screens to view models and are not part of this model.
- Compose layout, animation, snackbars, toasts and `formatDate` (locale formatting).
- `Patterns.EMAIL_ADDRESS` is a parameter `emailMatches` of the login form.
- `Plant.confidence` (a `Double`) is left out of `Plant`; no rule reads it.
- The image's `Uri` is modelled as its text; no image gives the text "null".
- `Text.ToIntOrNull` and `Text.IsDigit` accept ASCII digits only. Kotlin also accepts other Unicode decimal digits.
- `LoginScreen.ValidationError` measures the password in characters, not UTF-16 code units.
- `Schedule.Watered`: `timesWatered + 1` is unbounded; the `Int` wrap-around at 2^31 - 1 waterings is not modelled. The `Long` arithmetic of dates is unbounded as well.
- `HouseholdViewModel.EnsureUniqueJoinCode`: the source retries without bound. The model tries a finite sequence of draws and gives up when all of them collide, so it says nothing about an endless run. The code query's failure (no listener, so nothing happens) is not modelled separately.
- `WateringWorker.DoWork`: an exception is a flag `failed`. A failure stops the run before any notification. The model does not say which reads had already been issued.
- `AddPlantScreen.NewPlant` and `AddPlantScreen.AddPlantForm.SavePlant` use the corrected interval, not the `Int` product the code computes. The as-written due date is `AddPlantScreen.NewPlantAsWritten` (see Findings).
- `MainViewModel.MainViewModel.MarkPlantWatered` likewise uses the corrected interval. The as-written threshold and update are `Schedule.ThresholdAsWritten` and `Schedule.WateredAsWritten` (see Findings).
- `HouseholdViewModel.HouseholdViewModel.CreateHousehold`: the creator's user document is only linked when it exists. Firestore's update of a missing document fails, and success is then never reported.

## Findings

| source | as written | input that shows it | evidently intended | confidence | as-written member | corrected member |
|---|---|---|---|---|---|---|
| app/src/main/java/com/family/plantcare/viewmodel/MainViewModel.kt:136-143 | `days * 24 * 60 * 60 * 1000` is computed in 32-bit `Int` and wraps for 25 days or more | `wateringDays = 25`: the interval becomes -2134967296 ms, so the next due date is set about 24.7 days in the past | the interval in `Long` milliseconds, `days * 86400000` | high (not executed) | Schedule.AsWrittenBreaksAt25Days | Schedule.IntervalMillis |
| app/src/main/java/com/family/plantcare/ui/AddPlantScreen.kt:73 | the first due date adds the same `Int` product `days * 24 * 60 * 60 * 1000` to the clock | typing 25 days: the new plant's due date is about 24.7 days before it was created, so the worker reports it at once | the first due date `days` whole days ahead | high (not executed) | AddPlantScreen.NewPlantAsWrittenStartsOverdue | AddPlantScreen.NewPlant |
| app/src/main/java/com/family/plantcare/ui/MainScreen.kt:223-229 | the branch `DismissedToStart, DismissedToEnd -> false` comes before the `DismissedToEnd` branch, so the watering branch can never run | a right swipe (`DismissedToEnd`): `onWatered` is not called and no snackbar appears | a right swipe calls `onWatered(plant)` and shows the snackbar | high (not executed) | MainScreen.PlantListState.OnSwipe | MainScreen.PlantListState.OnSwipeIntended |
