# HealthyLiving — a Dafny model of the meal log, health data and sign-in flow

HealthyLiving is an iOS app. A user signs in with Firebase Auth and completes a
profile once. After that the user logs meals, with an optional photo, in a
Firestore collection, browses today's meals and the history of earlier days, and
reads their step count and active calories from HealthKit. This project models
the app's core logic and proves properties of it:

- **Meals** (`meal_model.dfy`, module `MealModel`): the `MealTime` raw values and
  the `Meal` record. `MealManager` has its snapshot listener, a mirror
  of the collection, today's meals worked out from that mirror, the calorie
  totals, and add/delete of a document.
- **Today's meal list** (`meal_view.dfy`, `MealView`): the `deletingMealIds` overlay
  that hides a meal while it is being deleted, the tap guard, the empty state and
  the card of calories per meal time.
- **Meal history** (`meal_history.dfy`, `MealHistory`): past meals grouped by
  start of day, newest day first; per-day totals; rows sorted newest first; the
  screen's loading/empty/list choice.
- **Add meal** (`add_meal.dfy`, `AddMeal`): form validation, the guards of
  `saveMeal`, the photo upload whose failure still saves the meal without an image,
  and the dismissal after a successful write.
- **HealthKit** (`health_kit.dfy`, `HealthKit`): authorization, today's two
  statistics queries joined by a dispatch group, and the weekly step
  buckets.
- **Users** (`user_model.dfy`, `UserModel`): the stored profile document, its
  decoding, the "is the profile complete" check, and `UserManager`.
- **Root routing** (`content_view.dfy`, `ContentView`): the four screens chosen
  from three flags, and the auth listener that keeps those flags up to date.
- **Authentication form** (`authentication.dfy`, `Authentication`): the guards
  for sign-in, sign-up and password reset, the callbacks, and the mode toggle.
- **Profile setup** (`profile_setup.dfy`, `ProfileSetup`): the username guard, the
  merged profile write, and its completion, which takes the user into the app.
- Shared pieces: `basics.dfy` (`Option`, `Result`, filtering, sums) and
  `text.dfy`. `text.dfy` holds Swift's trimming with `.whitespacesAndNewlines`,
  `Int(String)` with 64-bit bounds, and the decimal rendering that inverts it.

How the model is built:

- **Remote calls become requests and events.** A Firestore, Storage, Auth or
  HealthKit call is a request datatype that the method returns. Its completion is
  a separate event method that takes the outcome as a parameter.
- **Clocks and dates become parameters.** `Date()` is an integer `now`.
  `Calendar.startOfDay` is a parameter `day: int -> int`, and today's window is
  `[today, tomorrow)`.
- **Delayed work becomes events.** The 0.5-second removal timer and the dismissal
  timer are event methods.
- **Objects become classes.** Every `ObservableObject`, and every view whose
  event handlers change its `@State`, is a class whose methods change its fields
  under `modifies` clauses. `MealHistoryView` is the exception. It is modelled by
  functions of its manager's `meals`, because its only `@State` is the sheet's
  `selectedMeal`, which is presentation.
- **`@Binding` becomes a shared reference.** The `isProfileComplete` binding
  is a reference to the parent `ContentView`.

## Model

| member | source | states |
|---|---|---|
| MealModel.FromRawValue | Models/MealModel.swift:14-19 | a decoded meal time has exactly the given raw string |
| MealModel.RawValueRoundTrip | Models/MealModel.swift:14-19 | decoding a meal time's raw value gives that meal time back, and every case is in `allCases` |
| MealModel.TodaysMealsSpec | Models/MealModel.swift:94-101 | today's meals are exactly the meals created in `[today, tomorrow)`, with their multiplicities, in the order of `meals` |
| MealModel.MealTimeTotalsAddUp | Models/MealModel.swift:48-60 | the four per-meal-time sums add up to the total calories |
| MealModel.RawValue | Models/MealModel.swift:14-19 | the raw string of each case; `RawValueRoundTrip` proves it decodes back |
| MealModel.TodaysMeals | Models/MealModel.swift:98-100 | the `[today, tomorrow)` filter of the mirror; its meaning is stated by `TodaysMealsSpec` |
| MealModel.ListenerRegistration.constructor | Models/MealModel.swift:66-69 | a new registration is active for its user |
| MealModel.ListenerRegistration.Remove | Models/MealModel.swift:90 | `remove()` deactivates the registration |
| MealModel.MealManager.TotalCalories | Models/MealModel.swift:48-50 | today's calories, equal to the sum of the four meal times' calories |
| MealModel.MealManager.CaloriesByMealTime | Models/MealModel.swift:52-60 | every meal time has an entry; each entry is the calorie sum of that time's meals today; the entries add up to `totalCalories` |
| MealModel.MealManager.constructor | Models/MealModel.swift:41-46 | empty mirror, empty today, not loading, no listener |
| MealModel.MealManager.StartListening | Models/MealModel.swift:62-87 | `isLoading` rises; the old listener is removed; a new active listener for the user replaces it; the mirror is unchanged |
| MealModel.MealManager.StopListening | Models/MealModel.swift:89-92 | the listener is removed and cleared |
| MealModel.MealManager.OnSnapshot | Models/MealModel.swift:69-86 | `isLoading` falls in every case; an error or a missing snapshot keeps the mirror; otherwise `meals` is the decodable documents in order, and today's meals are recomputed from them |
| MealModel.MealManager.UpdateTodaysMeals | Models/MealModel.swift:94-101 | today's meals are recomputed for the given day window (the class invariant) |
| MealModel.MealManager.AddMeal | Models/MealModel.swift:103-129 | the document written: no id, the given fields, `createdAt` the current time |
| MealModel.MealManager.DeleteMeal | Models/MealModel.swift:131-146 | a request is issued exactly when the meal has an id, and it names that id |
| MealView.VisibleMeals | Views/Main/MealView.swift:23-25 | the listed rows; their meaning is stated by `VisibleMealsSpec` |
| MealView.ShowsEmptyState | Views/Main/MealView.swift:40 | the empty-state test on today's meals and the loading flag; related to the list by `EmptyStateVersusOverlay` |
| MealView.CardCalories | Views/Main/MealView.swift:263 | `caloriesByMealTime[t] ?? 0`; its values are stated by `CardLinesAddUp` |
| MealView.CardLinesAddUp | Views/Main/MealView.swift:255-280 | over the map `caloriesByMealTime` returns, each card line is that meal time's calories today and the four lines add up to the Total line |
| MealView.VisibleMealsSpec | Views/Main/MealView.swift:23-25 | a meal is listed exactly when it is in today's meals and its id (or "") is not being deleted; the list keeps the order; listed plus hidden is all of today |
| MealView.CardCountsHiddenMeals | Views/Main/MealView.swift:255-280 | the total card counts every meal of today, including those hidden by the overlay |
| MealView.EmptyStateVersusOverlay | Views/Main/MealView.swift:23-42 | the empty state implies an empty list; hiding every meal empties the list without showing the empty state |
| MealView.MealListView.constructor | Views/Main/MealView.swift:12-15 | no overlay, no selection, no timers pending |
| MealView.MealListView.DeleteMeal | Views/Main/MealView.swift:99-108 | a meal without an id changes nothing; otherwise its id joins the overlay, the meal leaves the list, and the delete of that id is issued |
| MealView.MealListView.OnDeleteCompleted | Views/Main/MealView.swift:109-126 | success starts one removal timer and keeps the meal hidden; failure takes the id out of the overlay, so every today's meal with that id is listed again |
| MealView.MealListView.OnRemovalTimerFired | Views/Main/MealView.swift:115-117 | the id leaves the overlay and its timer is consumed; a meal with that id still in today's meals is listed again |
| MealView.MealListView.Tap | Views/Main/MealView.swift:32-35 | a tap selects the meal unless its id is in the overlay |
| MealHistory.PastMeals | Views/Main/MealHistoryView.swift:22-24 | the meals before today; their grouping is stated by `MealsByDateSpec` |
| MealHistory.GroupByDay | Views/Main/MealHistoryView.swift:26-31 | grouping by day, newest day first; stated by `GroupByDayShape`, `GroupByDayMealsOn` and `GroupByDayFlatten` |
| MealHistory.MealsByDate | Views/Main/MealHistoryView.swift:17-32 | the history sections; stated by `MealsByDateSpec` |
| MealHistory.SectionTotal | Views/Main/MealHistoryView.swift:115-117 | a section's calories; stated by `SectionTotalsAddUp` and `SectionRowsTotal` |
| MealHistory.MealsOnIndex | Views/Main/MealHistoryView.swift:26-31 | in newest-first groups, looking up a group's date gives that group's meals |
| MealHistory.MealsOnAbsent | Views/Main/MealHistoryView.swift:26-31 | a date without a group has no meals |
| MealHistory.AddToGroupsShape | Views/Main/MealHistoryView.swift:26-31 | adding a meal keeps the groups newest first and non-empty |
| MealHistory.AddToGroupsMealsOn | Views/Main/MealHistoryView.swift:26-28 | adding a meal appends it to its own day's group only |
| MealHistory.AddToGroupsFlatten | Views/Main/MealHistoryView.swift:26-28 | adding a meal adds exactly that meal to the grouped meals |
| MealHistory.OnDaySnoc | Views/Main/MealHistoryView.swift:26-28 | a day's meals after one more meal are the old ones, plus that meal when it falls on the day |
| MealHistory.GroupByDayShape | Views/Main/MealHistoryView.swift:26-31 | grouping gives strictly newest-first dates and no empty group |
| MealHistory.GroupByDayMealsOn | Views/Main/MealHistoryView.swift:26-28 | each day's group holds exactly the meals of that day, in their original order |
| MealHistory.GroupByDayFlatten | Views/Main/MealHistoryView.swift:26-28 | the groups together hold exactly the input meals, with multiplicities |
| MealHistory.MealsByDateSpec | Views/Main/MealHistoryView.swift:17-32 | the history is newest day first; every group is a day before today holding exactly that day's meals; every past meal appears; the meals are a permutation of the past meals |
| MealHistory.SectionTotalsAddUp | Views/Main/MealHistoryView.swift:115-117 | the section totals add up to the calories of all grouped meals |
| MealHistory.HistoryTotal | Views/Main/MealHistoryView.swift:17-32 | the history's section totals add up to the calories of all past meals |
| MealHistory.InsertByCreatedAt | Views/Main/MealHistoryView.swift:143 | inserting into newest-first rows keeps them newest first and adds exactly the meal |
| MealHistory.SectionRows | Views/Main/MealHistoryView.swift:143 | a section's rows are its meals, newest first, as a permutation |
| MealHistory.SectionRowsTotal | Views/Main/MealHistoryView.swift:115-117 | sorting the rows does not change the section total |
| MealHistory.MealNoun | Views/Main/MealHistoryView.swift:134 | "meal" exactly for a count of one, otherwise "meals" |
| MealHistory.HistoryScreen | Views/Main/MealHistoryView.swift:36-82 | the spinner shows exactly while loading; the empty state shows exactly when not loading and no meal is before today; when not loading with past meals, the list shows the grouped history |
| AddMeal.IsFormValid | Views/Main/AddMealView.swift:184-189 | the form test as written; its meaning is stated by `IsFormValidIff` |
| AddMeal.SaveButtonEnabled | Views/Main/AddMealView.swift:164 | Save is enabled when not loading and the form is valid; used by `EnabledSaveOnlyNeedsUser` |
| AddMeal.IsFormValidIff | Views/Main/AddMealView.swift:184-189 | the form is valid exactly when the name has a non-whitespace character and the calories parse as a positive integer; whitespace at either end of the calories makes it invalid |
| AddMeal.IsFormValidDecimal | Views/Main/AddMealView.swift:184-189 | a non-blank name with any positive 64-bit calorie count written in decimal is valid |
| AddMeal.SaveGuard | Views/Main/AddMealView.swift:192-206 | the save goes ahead exactly with a user and a valid form, carrying the user, the parsed calories and the trimmed name; each failing guard gives its own message, in the order the app checks them |
| AddMeal.EnabledSaveOnlyNeedsUser | Views/Main/AddMealView.swift:164 | with the Save button enabled, only a missing user can stop the save |
| AddMeal.UploadedImageURL | Views/Main/AddMealView.swift:235-261 | an image URL exists exactly when the put succeeded and the download URL came back |
| AddMeal.AddMealForm.constructor | Views/Main/AddMealView.swift:17-26 | empty fields, Breakfast, no photo, no alert, not loading |
| AddMeal.AddMealForm.OnPhotoLoaded | Views/Main/AddMealView.swift:82-92 | loaded data replaces the selected image; a failed load keeps it |
| AddMeal.AddMealForm.ShowError | Views/Main/AddMealView.swift:288-291 | the alert shows the message |
| AddMeal.AddMealForm.SaveMeal | Views/Main/AddMealView.swift:191-233 | a failed guard shows its message and issues nothing; otherwise `isLoading` rises, and either the image upload or the meal write (trimmed description, no image) is issued |
| AddMeal.AddMealForm.OnImageUploaded | Views/Main/AddMealView.swift:211-221 | the meal written after the upload: validated fields, trimmed description, time `now`, and the URL only when the upload fully succeeded |
| AddMeal.AddMealForm.OnSaveCompleted | Views/Main/AddMealView.swift:263-286 | `isLoading` falls; success schedules the dismissal; an error shows "Error saving meal: " and the error |
| AddMeal.AddMealForm.OnDismissTimerFired | Views/Main/AddMealView.swift:276-280 | the form is dismissed |
| HealthKit.WeeklyData | Models/HealthKitManager.swift:155-164 | one count per bucket, in order; a bucket without a sum counts 0 |
| HealthKit.HealthKitManager.constructor | Models/HealthKitManager.swift:15-29 | zero counts, seven zero days, not authorized, not loading; authorization is requested only when health data is available |
| HealthKit.HealthKitManager.OnAuthorization | Models/HealthKitManager.swift:36-46 | `isAuthorized` takes the result; only a success starts today's join and the weekly query; the counts are untouched |
| HealthKit.HealthKitManager.FetchTodaysData | Models/HealthKitManager.swift:49-76 | nothing without authorization; otherwise `isLoading` rises and a new join with both queries outstanding begins |
| HealthKit.HealthKitManager.OnLeafCompleted | Models/HealthKitManager.swift:57-71 | a completion writes only its own count (0 without a sum) and leaves `isLoading` alone; the join's last completion queues its `notify` block; the invariant holds |
| HealthKit.HealthKitManager.OnGroupNotified | Models/HealthKitManager.swift:73-75 | the `notify` block clears `isLoading`, even when another join started meanwhile; the invariant holds |
| HealthKit.HealthKitManager.FetchWeeklySteps | Models/HealthKitManager.swift:136-138 | the weekly query is issued exactly when authorized |
| HealthKit.HealthKitManager.OnWeeklyResults | Models/HealthKitManager.swift:155-167 | no results keep the week; otherwise the week is one count per bucket, whatever the number of buckets |
| UserModel.EncodeUser | Models/UserModel.swift:12-18 | the stored fields of a user; inverted by `DecodeUser` (`DecodeEncode`) |
| UserModel.DecodeUser | Models/UserModel.swift:55-59 | a decoded user takes the document's id and its stored `username` and `profileComplete` |
| UserModel.DecodeEncode | Models/UserModel.swift:12-18 | decoding an encoded user gives the user back with the document id, even with extra fields |
| UserModel.ProfileComplete | Models/UserModel.swift:64-82 | false on a read error, a missing document, or a missing or non-boolean field; otherwise the stored flag |
| UserModel.ProfileCompleteOfUser | Models/UserModel.swift:64-82 | for a document that decodes, the check agrees with the decoded user's flag |
| UserModel.UserManager.constructor | Models/UserModel.swift:33-34 | no user, not loading |
| UserModel.UserManager.FetchUser | Models/UserModel.swift:38-39 | `isLoading` rises |
| UserModel.UserManager.OnUserFetched | Models/UserModel.swift:42-61 | `isLoading` falls; an error, a missing document or a failed decode keeps the last user; a decoded user replaces it |
| ContentView.SelectScreen | Views/ContentView.swift:21-39 | sign-in without authentication; loading exactly while checking; profile setup exactly when authenticated, not checking and incomplete; the main app exactly when complete |
| ContentView.ContentView.constructor | Views/ContentView.swift:13-17 | all flags false; no listener |
| ContentView.ContentView.CheckUserProfile | Views/ContentView.swift:84-93 | the loading screen starts and the profile check is issued |
| ContentView.ContentView.CheckAuthenticationState | Views/ContentView.swift:57-82 | a current user is authenticated and checked (loading screen); none means sign-in with both flags down; the listener is registered |
| ContentView.ContentView.OnAuthStateChanged | Views/ContentView.swift:68-81 | sign-in starts the check and the user fetch; sign-out clears the profile flags and the fetched user and shows sign-in |
| ContentView.ContentView.OnProfileChecked | Views/ContentView.swift:86-92 | the flag takes the check's value and loading ends; a signed-in user reaches the main app exactly for a complete profile, and setup after a failed read |
| ContentView.ContentView.OnProfileCompleteChanged | Views/ContentView.swift:47-54 | the user is fetched again exactly when the flag turns true with a user signed in |
| ContentView.ContentView.RemoveAuthListener | Views/ContentView.swift:95-100 | the listener is detached |
| Authentication.SignInCheck | Views/Authentication/AuthenticationView.swift:192-196 | sign-in passes exactly with both fields non-empty; otherwise the one message |
| Authentication.SignUpCheck | Views/Authentication/AuthenticationView.swift:211-220 | sign-up passes exactly with an email and a password of at least 6 characters; the two messages in guard order |
| Authentication.SignUpStricterThanSignIn | Views/Authentication/AuthenticationView.swift:192-220 | what sign-up accepts sign-in accepts; a short non-empty password separates them |
| Authentication.ResetCheck | Views/Authentication/AuthenticationView.swift:274-278 | the reset passes exactly with an email |
| Authentication.AuthenticationForm.constructor | Views/Authentication/AuthenticationView.swift:14-19 | empty fields, sign-in mode, no alert, not loading |
| Authentication.AuthenticationForm.ShowError | Views/Authentication/AuthenticationView.swift:299-302 | the alert shows the message |
| Authentication.AuthenticationForm.SignIn | Views/Authentication/AuthenticationView.swift:192-200 | a failed guard shows its message and issues nothing; otherwise loading starts and the sign-in goes out |
| Authentication.AuthenticationForm.SignUp | Views/Authentication/AuthenticationView.swift:211-224 | as sign-in, with the length guard, and account creation goes out |
| Authentication.AuthenticationForm.Submit | Views/Authentication/AuthenticationView.swift:83-93 | in sign-up mode, account creation goes out with loading when sign-up's guards pass, and otherwise the failing guard's message shows with nothing issued; in sign-in mode, the same with the sign-in request and sign-in's guard |
| Authentication.AuthenticationForm.OnAuthCallback | Views/Authentication/AuthenticationView.swift:201-207 | loading ends; an error is shown |
| Authentication.AuthenticationForm.ToggleMode | Views/Authentication/AuthenticationView.swift:162-170 | the mode flips and both fields are cleared |
| Authentication.AuthenticationForm.ResetPassword | Views/Authentication/AuthenticationView.swift:274-280 | no email shows its message and issues nothing; otherwise the reset goes out; loading is never touched |
| Authentication.AuthenticationForm.OnPasswordResetCallback | Views/Authentication/AuthenticationView.swift:281-287 | the alert shows the error or "Password reset email sent!" |
| ProfileSetup.SaveProfileCheck | Views/Authentication/ProfileSetupView.swift:138-146 | the save passes exactly with a user and a non-empty (untrimmed) name; the two messages in guard order |
| ProfileSetup.ProfileData | Views/Authentication/ProfileSetupView.swift:150-156 | the written fields; stated by `SavedProfileIsComplete`, `SavedProfileDecodes` and `BlankUsernameStoredEmpty` |
| ProfileSetup.ContinueDisabled | Views/Authentication/ProfileSetupView.swift:121 | Continue is disabled for an empty name or while saving; used by `EnabledContinueOnlyNeedsUser` |
| ProfileSetup.MergeDocument | Views/Authentication/ProfileSetupView.swift:158 | a merged write sets every written field and keeps every other existing field |
| ProfileSetup.SavedProfileIsComplete | Views/Authentication/ProfileSetupView.swift:150-158 | whatever the document held, the saved profile reads back as complete |
| ProfileSetup.SavedProfileDecodes | Views/Authentication/ProfileSetupView.swift:150-158 | the saved document decodes as the entered user with the trimmed name, the account email or "", and the current time as creation date |
| ProfileSetup.BlankUsernameStoredEmpty | Views/Authentication/ProfileSetupView.swift:143-151 | a name of only whitespace passes the guard and is stored as "" |
| ProfileSetup.EnabledContinueOnlyNeedsUser | Views/Authentication/ProfileSetupView.swift:121 | with Continue enabled, only a missing user can fail the save |
| ProfileSetup.ProfileSetupForm.constructor | Views/Authentication/ProfileSetupView.swift:13-18 | an empty name, today's date, no alert, not loading |
| ProfileSetup.ProfileSetupForm.ShowError | Views/Authentication/ProfileSetupView.swift:172-175 | the alert shows the message |
| ProfileSetup.ProfileSetupForm.SaveProfile | Views/Authentication/ProfileSetupView.swift:137-158 | a failed guard shows its message and writes nothing; otherwise loading starts and the profile, with `profileComplete` true, is merged into `users/<uid>` |
| ProfileSetup.ProfileSetupForm.OnProfileSaved | Views/Authentication/ProfileSetupView.swift:159-168 | loading ends; success sets the parent's `isProfileComplete`; an error shows "Error saving profile: " and the error |
| Text.DropLeading | Views/Main/AddMealView.swift:185 | the suffix after the leading whitespace |
| Text.DropTrailing | Views/Main/AddMealView.swift:185 | the prefix before the trailing whitespace |
| Text.Trim | Views/Main/AddMealView.swift:185 | a trimmed string neither starts nor ends with whitespace |
| Text.TrimIsSlice | Views/Main/AddMealView.swift:185 | the trimmed string is a contiguous slice of the input |
| Text.TrimmedAway | Views/Main/AddMealView.swift:185 | everything cut off at either end is whitespace |
| Text.TrimEmptyIff | Views/Main/AddMealView.swift:185 | trimming gives "" exactly for an all-whitespace string |
| Text.TrimOfTrimmed | Views/Main/AddMealView.swift:202 | a string without whitespace at its ends trims to itself |
| Text.TrimIdempotent | Views/Main/AddMealView.swift:202 | trimming twice is trimming once |
| Text.ParseInt | Views/Main/AddMealView.swift:187 | a parsed integer fits 64 bits; "" and any string with whitespace do not parse |
| Text.ParseIntAccepts | Views/Main/AddMealView.swift:187 | exactly an optional sign followed by at least one ASCII digit parses, whenever its value fits in 64 bits, to the digits' value, negated after `-` |
| Text.ParseIntExamples | Views/Main/AddMealView.swift:187 | "abc", "12a", "+" and "--1" do not parse; "007" gives 7 and "-12" gives -12 |
| Text.DecimalNat | Views/Main/AddMealView.swift:187 | a non-empty string of digits |
| Text.DecimalNatValue | Views/Main/AddMealView.swift:187 | the digits' value is the number rendered |
| Text.ParseDecimal | Views/Main/AddMealView.swift:187 | parsing a 64-bit integer's decimal form gives it back |
| Basics.Filter | Models/MealModel.swift:55-56 | a filter keeps exactly the elements that satisfy the predicate |
| Basics.FilterCounts | Models/MealModel.swift:55-56 | a filter keeps every satisfying element as often as it occurs |
| Basics.FilterIsSubsequence | Views/Main/MealView.swift:23-25 | a filter keeps the order |
| Basics.Somes | Models/MealModel.swift:80-82 | `compactMap` keeps exactly the present values, all of them when none is missing |
| Basics.SomesSingleton | Models/MealModel.swift:80-82 | one entry contributes its value when present, nothing otherwise |
| Basics.SomesConcat | Models/MealModel.swift:80-82 | `compactMap` distributes over concatenation; with `SomesSingleton`, the result is the present values in order with their repeats |
| Basics.SumPermutation | Views/Main/MealHistoryView.swift:143 | reordering does not change a sum |
| Basics.SumFilterSplit | Views/Main/MealView.swift:23-25 | the sums on the two sides of a split add up to the whole |

## Left out

- Firebase Auth, Firestore, Storage and HealthKit: not modelled. Each call is a returned request datatype, and its callback is an event method that takes the outcome as a parameter. The server-side query (`whereField("userId")`, newest-first `order(by: "createdAt")`) is the order of the documents the snapshot event carries.
- `DispatchQueue.main.async`, `[weak self]`, and the thread hops: not modelled. Every state write runs on the main queue, so events are applied one at a time. A released object is not modelled.
- `Date()`, `Calendar.startOfDay` and `date(byAdding:)`: parameters (`now`, `today`, `tomorrow`, `day`). The `?? Date()` fallback for tomorrow is not modelled, because that date can always be computed.
- The 0.5-second and 0.1-second `asyncAfter` delays and the 0.3-second animations: the timers are event methods without durations.
- SwiftUI layout, fonts, `PhotosPicker`, the `UIImage` preview, the sheets, and the Cancel and Done buttons: pure presentation, not modelled. The photo's loaded bytes are modelled; the preview image is not.
- `formattedDate`, `formattedBirthDate`, `User.age` and the `DateFormatter` output: formatting only, not modelled.
- MealDetailView, ProfileView, HealthCharts, MainAppView, HomeView, ActivityView, HealthView and the app entry points: not part of this model.
- `signInWithGoogle` and `getRootViewController()`: not modelled. They depend on the Google sign-in SDK and on UIKit's window hierarchy.
- The "Forgot Password?" button, shown only in sign-in mode: its visibility is layout. `ResetPassword` models its action.
- The image file name (`<uid>_<timestamp>.jpg` under `meal_images/`): not modelled. The model keeps only whether the upload yielded a URL.
- HealthKit.HealthKitManager.FetchWeeklySteps: does not model the `quantityType(forIdentifier: .stepCount)` nil guard. That type always exists for the built-in identifier, so the guard cannot fire. The same holds for the per-query guards at the start of the step and calorie queries.
- MealView.MealListView and MealHistory: the `onAppear`/`onDisappear` calls of `startListening`/`stopListening` are modelled only as the manager's own methods. The history sheet's `selectedMeal` is not modelled.
- HealthKit.WeeklyData: takes each bucket's sum as an integer. The truncation of the `Double` sum by `Int(steps)` is not modelled, because floating point is outside the model.
- HealthKit.HealthKitManager.OnWeeklyResults: the weekly handler writes `weeklySteps` from the results; an error with no results leaves it as it was. The enumeration's date range is not modelled; the buckets arrive as the list the query produced.
- MealModel.MealManager.OnSnapshot: a notification delivered after `stopListening` is still applied, as in the app. Which documents fail to decode is a parameter (`None` entries).
- MealModel.MealManager.AddMeal: the synchronous encoding failure of `addDocument(from:)` and the write's own failure both arrive as the error of `AddMeal.AddMealForm.OnSaveCompleted`.
- MealHistory.SectionRows: any newest-first permutation satisfies the contract. The order that Swift's `sorted` gives to meals with equal timestamps is not pinned down.
- MealHistory.MealsByDate: groups by `day(createdAt)` for an arbitrary `day` function. That the function is Calendar's start of day is not modelled.
- Authentication.SignUpCheck: counts the password's length in Unicode scalars. Swift's `String.count` counts grapheme clusters, so the two differ only for combined characters.
- Text.ParseInt: models `Int(String)` on 64-bit platforms: an optional sign, ASCII digits, and nil on overflow (stated by `ParseIntAccepts`). Swift `Int` overflow traps elsewhere (calorie sums, step counts) are not modelled; sums are unbounded integers.
- Text.Trim: takes `.whitespacesAndNewlines` to be the Unicode separators (categories Zs, Zl, Zp), plus tab, line feed, vertical tab, form feed, carriage return and next line.
- UserModel.DecodeUser: models `data(as: User.self)` as "every field present with its type". Firestore's `Codable` conversions beyond that are not modelled.
- The Firestore `users/<uid>` and `meals` paths: not modelled. Each request carries the user or meal id it names.
