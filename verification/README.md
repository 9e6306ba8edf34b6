# Tracker: a Dafny model of the habit tracker's stores, view-model and form rules

The app lets a user define trackers: habits that repeat on chosen weekdays, or irregular events with a fixed date. Trackers are grouped into named categories, and the user marks them done day by day. This project models the logic that sits between the screens and the Core Data store:

- **The object context.** This is the managed-object context shared by the three stores. It holds category, tracker and completion-record objects, each with an object identity. The context is kept twice: its in-memory state and its last saved state. Stores search it by name or id and fetch from it in sort order.
- **The completion ledger** (`TrackerRecordStore`). It appends a record when a tracker is marked done, and deletes the first matching record on the same calendar day when the mark is undone.
- **The category store and tracker store** (`TrackerCategoryStore`, `TrackersStore`, `CoreDataService`). Their operations:
  - Look up a category by name, taking the first match.
  - Save a category.
  - Delete a category together with its trackers.
  - Rename a category.
  - Save a tracker.
  - Toggle a tracker's pin.
  - Delete a tracker.
- **The category list view-model** (`CategoryViewModel`). It keeps an in-memory list of category names, mirrors every change to the store and announces the new list.
- **The schedule screen and the `Weekday` enum.**
- **The tracker-creation form** (`TrackerSettingsViewController`):
  - the create-button rule for habits and for irregular events;
  - single-select emoji and colour toggles;
  - the weekday summary shown in the schedule row;
  - the create action, which stores exactly one kind of schedule.
- **Small screen state machines:**
  - the done button of a tracker card;
  - the filter picker, whose choice is persisted in the defaults store;
  - the create-or-rename category form;
  - the two-page onboarding pager.

Every operation is a pure function from the old state to the new one.
- An operation that can fail at a fetch takes a `fetchFails` flag.
- A `UUID`, the current `Date` and a new object's stored `isPined` default are passed in as parameters.
- Dates are an `Instant`: a calendar day plus a second within it. "Same day" compares days.
- Colours are opaque tokens `ColorSelection(n)`.
- `NSSortDescriptor` ordering is an insertion sort on a lexicographic key. A string's key is its sequence of code points.

Three behaviours worth knowing:
- Category names are not unique. Nothing checks for duplicates when a category is saved.
- Deleting a category deletes its trackers but not their completion records.
- Undoing a completion removes one record: the first match in the store's local list. Undoing a completion never shrinks that list. Whether a deleted entry of that list still matches a later undo depends on how Core Data faults deleted objects; the model assumes it keeps reading its old id and date (see "Left out").

## Model

| member | source | states |
|---|---|---|
| Weekdays.FromRawValue | Tracker/MainScreen/ScheduleViewController.swift:138-146 | `Weekday(rawValue:)` succeeds exactly for the seven Russian day names, returning the case with that raw value |
| Weekdays.RawValueRoundTrip | Tracker/MainScreen/ScheduleViewController.swift:138-146 | every case's raw value parses back to that case, so the raw values are pairwise distinct |
| Weekdays.RowDay | Tracker/MainScreen/ScheduleViewController.swift:123-126 | each of the seven row labels parses to a day, so `Weekday(rawValue:)` never fails for a row; row r is the day whose declaration index is (r+1) mod 7 (rows start on Monday, the enum on Sunday) |
| Weekdays.RowDaysDistinct | Tracker/MainScreen/ScheduleViewController.swift:18 | distinct rows stand for distinct days, and every day has a row |
| Schedule.DidSwitch | Tracker/MainScreen/ScheduleViewController.swift:120-136 | a switch whose cell cannot be located changes nothing; on appends the row's day; off on a selected day removes the position of its first occurrence, shifting the later days down |
| Schedule.DidTapButton | Tracker/MainScreen/ScheduleViewController.swift:61-64 | the delegate receives the selection unchanged |
| Schedule.SwitchOffRemovesOneCopy | Tracker/MainScreen/ScheduleViewController.swift:129-133 | switching a day off removes exactly one copy of it (one fewer element); a day that is not selected leaves the list as it was |
| Schedule.SwitchOffRemovesFirstCopy | Tracker/MainScreen/ScheduleViewController.swift:129-133 | switching a selected day off removes its earliest copy; the days chosen before and after it stay in their order |
| Schedule.SwitchOnKeepsDuplicates | Tracker/MainScreen/ScheduleViewController.swift:125-128 | switching on keeps every earlier entry in place and adds one more copy of the day at the end, with no deduplication |
| Schedule.OnThenOffRestoresMultiset | Tracker/MainScreen/ScheduleViewController.swift:125-134 | on then off for the same row gives back the same multiset of days |
| Schedule.OnThenOffRestoresFreshDay | Tracker/MainScreen/ScheduleViewController.swift:125-134 | for a day not yet selected, on then off gives back the very list |
| Trackers.Apply | Tracker/MainScreen/Structs/Tracker.swift:10-19 | an assignment to a stored tracker changes only `isPined` or `category`; the `let` fields never change |
| Trackers.ApplyAll | Tracker/MainScreen/Structs/Tracker.swift:11-18 | after any sequence of assignments the id, name, colour, emoji and schedule are unchanged, and each `var` field is unchanged unless some assignment targets it |
| Trackers.MutationsKeepScheduleKind | Tracker/MainScreen/Structs/Tracker.swift:15-16 | no sequence of assignments can break "exactly one of calendar and date is set" |
| CoreDataService.FetchCategoryByName | Tracker/CoreData/CoreDataService.swift:15-26 | returns the first category in storage order whose name is exactly the argument; returns nil when none matches or the fetch throws; returns no new context (read-only) |
| CoreDataService.CreateCategory | Tracker/CoreData/CoreDataService.swift:28-32 | inserts and returns one category with that name and a fresh identity; the saved state is untouched |
| CoreDataService.CreateCategoryKeepsValid | Tracker/CoreData/CoreDataService.swift:28-32 | the insertion keeps identities fresh and unique |
| CategoryStore.FetchCategories | Tracker/CoreData/TrackerCategoryStore.swift:34-36 | the fetch returns exactly the stored categories (as a multiset), sorted ascending by name |
| CategoryStore.FetchCategoryByTitle | Tracker/CoreData/TrackerCategoryStore.swift:38-40 | finds a category with exactly that name, and returns nil iff no stored category has it |
| CategoryStore.SaveCategory | Tracker/CoreData/TrackerCategoryStore.swift:42-47 | appends one category with that name and saves; trackers and records are unchanged |
| CategoryStore.SavedCategoryIsEmpty | Tracker/CoreData/TrackerCategoryStore.swift:42-47 | the new category owns no trackers even when the name is already taken, and the store stays valid |
| CategoryStore.WithoutCategory | Tracker/CoreData/TrackerCategoryStore.swift:54-59 | removes the category and exactly the trackers whose relationship points at it |
| CategoryStore.OtherCategoriesRemovesOne | Tracker/CoreData/TrackerCategoryStore.swift:59 | with unique identities, deleting one category object removes exactly its position |
| CategoryStore.DeleteCategory | Tracker/CoreData/TrackerCategoryStore.swift:49-61 | an unknown name (or a failed lookup) changes nothing; otherwise the context is saved and the completion records are untouched |
| CategoryStore.DeleteCategoryCascades | Tracker/CoreData/TrackerCategoryStore.swift:49-61 | the category and all its trackers are gone; every other category and tracker survives; the records are unchanged; the store stays valid |
| CategoryStore.Rename | Tracker/CoreData/TrackerCategoryStore.swift:68 | renames the object with that identity and leaves every other object as it was |
| CategoryStore.RenameOne | Tracker/CoreData/TrackerCategoryStore.swift:68 | with unique identities, renaming changes exactly one position |
| CategoryStore.UpdateCategory | Tracker/CoreData/TrackerCategoryStore.swift:63-70 | an unknown name changes nothing; otherwise the context is saved with trackers and records unchanged |
| CategoryStore.UpdateCategoryKeepsTrackers | Tracker/CoreData/TrackerCategoryStore.swift:63-70 | the renamed category keeps its identity and its trackers, other categories are untouched, and the store stays valid |
| TrackerStore.GetTrackers | Tracker/CoreData/TrackersStore.swift:44-46 | the fetch returns exactly the stored trackers, sorted ascending by name |
| TrackerStore.SaveTracker | Tracker/CoreData/TrackersStore.swift:48-58 | appends one tracker object and saves; categories and records are unchanged |
| TrackerStore.SaveTrackerIgnoresCompletion | Tracker/CoreData/TrackersStore.swift:48-58 | the result does not depend on `isCompleted`; the new object has the given id, name, colour, emoji and calendar, no date, and belongs to the given category; the store stays valid |
| TrackerStore.FirstWithId | Tracker/CoreData/TrackersStore.swift:61-65 | the fetch by `id == %@` yields the first tracker with that id, and nil iff there is none |
| TrackerStore.TogglePinned | Tracker/CoreData/TrackersStore.swift:60-73 | a throwing fetch returns before saving; otherwise only the first tracker with the id has `isPined` flipped, and the context is saved even when nothing matched |
| TrackerStore.TogglePinnedTwiceRestores | Tracker/CoreData/TrackersStore.swift:60-73 | toggling twice restores every tracker, and the store stays valid |
| TrackerStore.DeleteTracker | Tracker/CoreData/TrackersStore.swift:75-89 | a throwing fetch returns before saving; an unknown id leaves the trackers unchanged; otherwise the first tracker with the id is removed |
| TrackerStore.DeleteTrackerRemovesFirstOnly | Tracker/CoreData/TrackersStore.swift:75-89 | exactly one object is removed (one fewer tracker; multiset minus that object), it is gone, and the store stays valid |
| RecordStore.FetchRecords | Tracker/CoreData/TrackerRecordStore.swift:46-48 | returns exactly the stored records, in ascending date order |
| RecordStore.FetchRecordsFor | Tracker/CoreData/TrackerRecordStore.swift:50-52 | returns exactly the records whose `trackerID` is the given tracker, each as many times as it is stored, in date order |
| RecordStore.SaveRecord | Tracker/CoreData/TrackerRecordStore.swift:54-59 | appends one record at the end of both the context and `completedTrackers` without any duplicate check, and saves; earlier entries are unchanged |
| RecordStore.SaveLocalRecords | Tracker/CoreData/TrackerRecordStore.swift:62-64 | replaces the local list wholesale and leaves the context alone |
| RecordStore.Target | Tracker/CoreData/TrackerRecordStore.swift:67 | the delete targets the first local record with that tracker id on that calendar day, and none iff no local record matches |
| RecordStore.WithoutObject | Tracker/CoreData/TrackerRecordStore.swift:71 | deleting an object removes exactly the records with its identity |
| RecordStore.WithoutObjectCount | Tracker/CoreData/TrackerRecordStore.swift:71 | deleting an object drops every copy with its identity and keeps every copy of the other records |
| RecordStore.DeleteRecord | Tracker/CoreData/TrackerRecordStore.swift:66-73 | with no match nothing is deleted or saved; otherwise the target object leaves the context, which is saved; `completedTrackers` is never changed |
| RecordStore.DeleteRecordIgnoresTimeOfDay | Tracker/CoreData/TrackerRecordStore.swift:67 | two marks on the same day at different times delete the same thing |
| RecordStore.DeleteRecordIdempotent | Tracker/CoreData/TrackerRecordStore.swift:66-72 | assuming a deleted, saved record keeps reading its old id and date: the local list keeps it, so a second delete for the same mark targets it again and changes nothing further |
| RecordStore.TwoMarksTwoUnmarksLeaveOne | Tracker/CoreData/TrackerRecordStore.swift:54-72 | marking a tracker done twice on one day leaves two records; under the same assumption, undoing twice then leaves one, because both deletes target the same first record |
| RecordStore.SavedRecordNotFoundByTracker | Tracker/CoreData/TrackerRecordStore.swift:50-59 | `saveRecord` never sets `trackerID`, so its records are fetched in general but never for a tracker |
| RecordStore.LedgerKeepsValid | Tracker/CoreData/TrackerRecordStore.swift:54-72 | saving and deleting records keep identities fresh and unique |
| CategoryViewModel.Init | Tracker/MainScreen/CategoryViewModel.swift:29-32 | the list holds the fetched names in fetch order (so sorted), dropping unnamed categories; a name is listed iff some stored category has it; list and store hold the same names with the same multiplicities |
| CategoryViewModel.RowsAreStored | Tracker/MainScreen/CategoryViewModel.swift:34-40 | while list and store agree, every row below `numberOfCategories()` names a category the store can find |
| CategoryViewModel.DeleteCategoryAt | Tracker/MainScreen/CategoryViewModel.swift:42-46 | removes exactly that row, later rows move up, the store deletes that name, and the new list is announced |
| CategoryViewModel.CreateCategory | Tracker/MainScreen/CategoryViewModel.swift:48-52 | the store saves the name; the list keeps its rows and gains the name at the end with no duplicate check; the new list is announced |
| CategoryViewModel.UpdateCategory | Tracker/MainScreen/CategoryViewModel.swift:54-62 | an absent old name changes nothing, calls no store and announces nothing; otherwise only the first occurrence is replaced, the store renames, and the new list is announced |
| CategoryViewModel.CreateThenDeleteLastRestoresList | Tracker/MainScreen/CategoryViewModel.swift:42-52 | creating a row and deleting the last row gives the list back |
| CategoryViewModel.CreateKeepsMirror | Tracker/MainScreen/CategoryViewModel.swift:48-52 | creating keeps list and store holding the same names, and keeps the store valid |
| CategoryViewModel.DeleteKeepsMirror | Tracker/MainScreen/CategoryViewModel.swift:42-46 | while fetches succeed, deleting a row keeps list and store in step: the store loses one category of that name, the first in storage order |
| CategoryViewModel.RenameSwapsName | Tracker/CoreData/TrackerCategoryStore.swift:63-70 | renaming in the store swaps one copy of the old name for the new one |
| CategoryViewModel.ReplaceOneName | Tracker/MainScreen/CategoryViewModel.swift:59 | replacing a row swaps one copy of its name for the new one |
| CategoryViewModel.UpdateKeepsMirror | Tracker/MainScreen/CategoryViewModel.swift:54-62 | while fetches succeed, renaming keeps list and store in step and the store valid |
| ScheduleSummary.Abbreviation | Tracker/MainScreen/TrackerSettingsViewController.swift:384-400 | every day has a two-letter abbreviation |
| ScheduleSummary.AbbreviationInjective | Tracker/MainScreen/TrackerSettingsViewController.swift:384-400 | distinct days have distinct abbreviations |
| ScheduleSummary.SummaryLayout | Tracker/MainScreen/TrackerSettingsViewController.swift:384-401 | the summary of n days has length 4n-2 (empty for none); day i sits at characters 4i and 4i+1; every day but the last is followed by ", " |
| ScheduleSummary.SummaryInjective | Tracker/MainScreen/TrackerSettingsViewController.swift:384-401 | different selections never show the same summary, so the text determines the selection and its order |
| TrackerSettings.UpdateCreateButtonState | Tracker/MainScreen/TrackerSettingsViewController.swift:226-248 | the button is enabled iff the form is valid: for a habit, a name, weekdays, emoji, colour and category are all set; otherwise the same without weekdays |
| TrackerSettings.SetWeekdays | Tracker/MainScreen/TrackerSettingsViewController.swift:44-48 | the given list, possibly empty, becomes the selection, and the button follows validity |
| TrackerSettings.DidSelectCategory | Tracker/MainScreen/TrackerSettingsViewController.swift:433-437 | the chosen name is recorded and the button follows validity |
| TrackerSettings.DidEditTextField | Tracker/MainScreen/TrackerSettingsViewController.swift:272-275 | the clear button is hidden iff there is no name, and the create button follows validity |
| TrackerSettings.ClearTextField | Tracker/MainScreen/TrackerSettingsViewController.swift:278-282 | clearing empties the name, hides the clear button and always disables the create button |
| TrackerSettings.TapEmoji | Tracker/MainScreen/TrackerSettingsViewController.swift:574-583 | tapping the selected emoji clears the selection, tapping another makes it the only one; nothing else changes but the button |
| TrackerSettings.TapColor | Tracker/MainScreen/TrackerSettingsViewController.swift:565-585 | tapping the selected colour clears it and leaves the stored hex as it was; tapping another selects it and stores its hex |
| TrackerSettings.TapEmojiTwice | Tracker/MainScreen/TrackerSettingsViewController.swift:575-581 | two taps on the selected emoji restore the form; two taps on any other emoji leave nothing selected |
| TrackerSettings.TapColorTwice | Tracker/MainScreen/TrackerSettingsViewController.swift:567-573 | the same toggle law for colours; the stored hex keeps the tapped colour |
| TrackerSettings.NumberOfRows | Tracker/MainScreen/TrackerSettingsViewController.swift:364-368 | the table has 2 rows exactly for a habit and 1 otherwise, including when no type is set |
| TrackerSettings.DidTapCreate | Tracker/MainScreen/TrackerSettingsViewController.swift:139-209 | aborts iff the type is missing, no category is chosen, the category is not found, or a habit has no weekdays; an abort leaves the context as it was; otherwise the context is saved with one new tracker in the found category, and the delegate receives the category name |
| TrackerSettings.CreateSetsOneScheduleKind | Tracker/MainScreen/TrackerSettingsViewController.swift:157-208 | an irregular event gets no calendar and the current date; a habit gets the selected weekdays and no date; stored object and draft agree, and the completed tracker has exactly one schedule kind |
| TrackerSettings.EnabledCreateStoresDraft | Tracker/MainScreen/TrackerSettingsViewController.swift:157-208 | when the rules enabled the button, the stored object and the delivered draft agree on id, name, colour, emoji and schedule; the object is in the chosen category; the store stays valid |
| TrackerSettings.InitialTapAborts | Tracker/MainScreen/TrackerSettingsViewController.swift:147-150 | a fresh form's button is enabled though the form is invalid, and tapping it does nothing because no category is chosen |
| TrackerSettings.EmptyScheduleCounts | Tracker/MainScreen/TrackerSettingsViewController.swift:44-48 | an empty weekday list satisfies a habit's weekday condition; only a missing list fails it |
| TrackerCell.DidTapDone | Tracker/MainScreen/TrackerCell.swift:110-120 | no effect unless `isCompletable` and an id are present; otherwise completion flips, the button shows the new state, and the delegate gets the new value with the id |
| TrackerCell.AlphaMarksCompletion | Tracker/MainScreen/TrackerCell.swift:116-118 | after a tap the alpha is 0.3 iff completed, and the done image shows iff completed |
| TrackerCell.TapTwiceRestores | Tracker/MainScreen/TrackerCell.swift:115-119 | two taps restore the completion state; the delegate hears the flipped value, then the original; a cell whose button showed its state comes back identical |
| Filters.FromRawValue | Tracker/MainScreen/FilterViewController.swift:15-20 | raw values 0 to 3 parse to the filter with that raw value; every other integer fails |
| Filters.RawValueRoundTrip | Tracker/MainScreen/FilterViewController.swift:15-20 | each filter's raw value lies in 0 to 3 and parses back to it |
| Filters.SelectedIndex | Tracker/MainScreen/FilterViewController.swift:28-35 | 0 while nothing is stored, otherwise the stored integer |
| Filters.SetSelectedIndex | Tracker/MainScreen/FilterViewController.swift:36-38 | reading after a set returns the value set |
| Filters.DidSelectRow | Tracker/MainScreen/FilterViewController.swift:107-117 | stores the row; reports a filter iff the row is one of the four options, the one whose raw value is the row |
| Filters.FreshInstallChecksAll | Tracker/MainScreen/FilterViewController.swift:28-35 | before any choice only the "all trackers" row has the checkmark |
| Filters.SelectedRowAloneChecked | Tracker/MainScreen/FilterViewController.swift:107-114 | after choosing a row, that row alone has the checkmark and the reported filter is that row's |
| CategoryForm.Open | Tracker/MainScreen/CreateCategoryViewController.swift:119-124 | the text is prefilled with the edited category's name (nil when creating), and Done starts disabled |
| CategoryForm.DidEditTextField | Tracker/MainScreen/CreateCategoryViewController.swift:72-83 | Done is enabled and the clear button shown iff the text is non-empty |
| CategoryForm.ClearTextField | Tracker/MainScreen/CreateCategoryViewController.swift:85-91 | empties the text and disables Done |
| CategoryForm.DidTapDone | Tracker/MainScreen/CreateCategoryViewController.swift:93-104 | with empty or nil text nothing is called or dismissed; in edit mode `update` gets the original category and the new name; otherwise `create` gets a category with that name and no trackers |
| CategoryForm.EnabledIffDoneActs | Tracker/MainScreen/CreateCategoryViewController.swift:72-104 | after an edit, Done is enabled exactly when tapping it would act |
| CategoryForm.OpenDependsOnlyOnMode | Tracker/MainScreen/CreateCategoryViewController.swift:123-124 | the title and the prefill depend only on whether a category is being edited |
| CategoryForm.EditFlow | Tracker/MainScreen/CreateCategoryViewController.swift:93-104 | typing a non-empty name enables Done, which renames the edited category or creates an empty one |
| CategoryForm.ClearedDoneDoesNothing | Tracker/MainScreen/CreateCategoryViewController.swift:85-96 | after clearing, Done does nothing |
| Onboarding.Before | Tracker/MainScreen/OnboardingViewController.swift:59-71 | nil for the first page and for a controller not among the pages; otherwise the previous page |
| Onboarding.After | Tracker/MainScreen/OnboardingViewController.swift:73-85 | nil for the last page and for a controller not among the pages; otherwise the next page |
| Onboarding.BeforeAfterInverse | Tracker/MainScreen/OnboardingViewController.swift:59-85 | forward from p reaches q exactly when back from q reaches p; paging stops at both ends |
| Onboarding.ViewDidLoad | Tracker/MainScreen/OnboardingViewController.swift:32-44 | the first page (blue) is shown; the control counts both pages and points at the first |
| Onboarding.DidFinishAnimating | Tracker/MainScreen/OnboardingViewController.swift:87-93 | the control points at the index of the page now shown, whatever the `finished` and `completed` flags say; a foreign controller leaves it alone |
| Onboarding.SwipesKeepSync | Tracker/MainScreen/OnboardingViewController.swift:59-93 | loading starts in sync, and every swipe, completed or abandoned, keeps the control pointing at the page shown |

## Left out

- The visible-tracker filter, the pinned group and search are left out. The visible-tracker filter is not implemented in the files modelled here: the main screen only builds a static layout.
- UIKit is left out: layout, fonts, colours of views, table and collection view plumbing, modal presentation and dismissal. So is the layout arithmetic in floating point. The category list, statistics and main tracker screens are presentation code outside this model.
- Persistence I/O is left out: the persistent container, the store file, `NSFetchedResultsController` change callbacks, and `saveContext` errors. A save always succeeds in the model.
- The `.xcdatamodel` entity descriptions are not part of this model. A new tracker's `isPined` default is therefore a parameter, `pinnedDefault`. Optional attributes are modelled as optional.
- `UUID()` generation is left out. The caller passes the id.
- `Date()` is left out. The caller passes `now`.
- `Calendar.current` is left out. Each date carries its calendar day, and day comparison compares these.
- Localised string ordering is left out. Names sort by code point.
- The hex encoding of colours (`toHex`) is left out. The stored colour is the token itself.
- The JSON encoding of the weekday list is left out. The stored calendar is the list, and the encoding never fails.
- Analytics events are left out: they are a call into an external SDK.
- `RecordStore.DeleteRecord`: a stored record with no date would make the source's force unwrap trap. In the model a record always has a date, so this trap does not exist.
- `TrackerSettings.TapColor`: the source stores the hex string while the reload renders the selected colour cell. The model stores it during the tap itself.
- `TrackerSettings.DidTapCreate`: the source has one compile-time defect, at two call sites (TrackerSettingsViewController.swift lines 175 and 207). Both `Tracker(...)` calls omit `isPined` and `category`, which the struct declares without defaults. The model therefore delivers a `Draft` with the six supplied fields and the category name, and invents no defaults. The helper `TrackerSettings.Complete` adds the two missing fields when a lemma needs a whole `Tracker`.
- `TrackerSettings.DidTapCreate`: `assertionFailure` for a missing tracker type traps in debug builds. The model follows release builds, where the call returns.
- `CategoryViewModel.NumberOfCategories` and `CategoryViewModel.GetCategory` carry no contract of their own. `CategoryViewModel.RowsAreStored` states their property: every row below the count names a stored category.
- The `TrackerCategory` struct's own file is not part of this model. `CategoryForm.TrackerCategory` has only the two fields the form uses.
- `CoreDataService.FetchCategoryByName`, `TrackerStore.FirstWithId` and `CategoryViewModel.DeleteKeepsMirror` assume that a fetch without a sort descriptor returns objects in insertion order. Core Data does not specify that order. So when two categories share a name, the source does not determine which one `deleteCategory` or `updateCategory` touches; the model picks the first inserted. The same holds for two trackers sharing an id.
- `RecordStore.DeleteRecordIdempotent` and `RecordStore.TwoMarksTwoUnmarksLeaveOne` rest on two assumptions about Core Data that the source does not settle. The local list `completedTrackers` holds references to managed objects; the model keeps value snapshots of them. First, the model assumes a record that was deleted and saved keeps reading its old `id` and `date`, so it still matches a later undo. If instead the saved deletion turns it into a fault whose attributes read nil, the second undo skips it and deletes the next match: two marks and two undos then leave no record, and a second delete is not a no-op when a later local entry matches. Second, the model assumes that `context.delete` on an object that was already deleted and saved is a silent no-op, so it removes nothing the second time.
- `CategoryStore.FetchCategories`, `CategoryStore.FetchCategoryByTitle`, `TrackerStore.GetTrackers` and `RecordStore.FetchRecords` assume the initial `performFetch` succeeded. If it fails (TrackerCategoryStore.swift:88, TrackersStore.swift:38, TrackerRecordStore.swift:40), only a message is printed. `fetchedObjects` then stays nil, and every later fetch returns an empty list. The model has no such path, because it treats store loading as I/O.
- `CategoryStore.DeleteCategoryCascades` and `CategoryStore.DeleteCategory` say the completion records are unchanged. Those files never delete records, but Core Data deletes more if the delete rules say so. The relationship delete rules live in the `.xcdatamodel`, which is not part of this model. The claim therefore holds only if no rule cascades from a deleted tracker to its records, and, for `DeleteCategoryCascades`, only if the category's `trackers` relationship is an unordered to-many relationship: for an ordered one the `as? Set<TrackerCD>` cast at TrackerCategoryStore.swift:54 yields nil and no tracker is deleted. The inverse rule from a deleted tracker could also nullify a record's `trackerID`; that would leave the record's other fields as they are, and records made by `saveRecord` never have `trackerID` set.
