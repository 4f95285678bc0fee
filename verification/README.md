# Profile app core, modelled in Dafny

A model of the logic inside a small Android profile app (Kotlin, Jetpack
Compose, Firebase). Four pieces are modelled:

- **The first-time details form** (`DetailsViewModel`): three text fields
  edited independently, and a save action that checks, in a fixed order,
  that a user is signed in, that the name is not blank, that the age is
  non-blank and all decimal digits, and that the phone matches
  `^[0-9]{10}$`. The first failing check publishes its `Error` and nothing
  is written. Only after every check passes is `Loading` published and the
  three-key record `{name, age, phone}` written to `users/<uid>`. The write's
  listeners then publish `Success`, or `Error` with the failure's message or
  a fallback. `SaveState` has exactly the four variants Idle, Loading,
  Success and Error, and only Error carries a message. The save button is
  enabled in every state but Loading.
- **The profile controller** (`ProfileViewModel`): a class with the fields
  `userProfile`, `isEditMode`, `profileImageUri` and `isLoading`. Its
  operations are the fetch started at construction, the four-field profile
  update, the three-step image update (upload, download URL, field write),
  the appends to the hackathon and project lists, the premium upgrade and
  the edit-mode toggle. The three awaited operations switch `isLoading` on at
  the start and always off at the end.
- **The profile records** (`UserProfile`, `Hackathon`, `Project`): immutable
  values with default field values, changed by copying.
- **The start destination**: Login when nobody is signed in, otherwise
  Details or Home depending on the remembered `isNewUser` flag. That flag
  starts false and is set by the completion of a lookup of `users/<uid>`. The
  route enumeration has seven cases with distinct lower-case route strings.

How the model represents the app:

- **Remote collaborators.** The Firebase database and file storage are
  replaced by two things. Each view model keeps a `calls` field listing every
  call it issued, in order: a `Get`, a `SetValue` at a path, a `PutFile`, or
  a `GetDownloadUrl`. Each awaited step takes an outcome parameter instead of
  a real reply: `Done(value)` or `Fails(message)`.
- **The signed-in user** is an `Option<User>` parameter, read when the
  operation runs.
- **Coroutine bodies.** Each `viewModelScope.launch` body is one sequential
  method that runs to completion.
- **Listener callbacks.** The details-save listeners and the navigation
  lookup's completion listener are separate methods, called when the
  callback fires.
- **Published states.** Every value a `StateFlow` publishes for `saveState`
  and `isLoading` is recorded in a ghost trace (`emitted`, `loadingTrace`).
  The traces are what let the contracts say "passes through Loading" and
  "true at the start, false at the end".
- **Kotlin text functions.** A Kotlin `Char` is one UTF-16 code unit.
  `Char.isDigit` is modelled as the Unicode 15.0 category Nd restricted to
  the Basic Multilingual Plane: 37 blocks of ten digits. A digit above
  U+FFFF is a surrogate pair to Kotlin, and neither half is a digit.
  `Char.isWhitespace` is modelled as the JVM's `Character.isWhitespace ||
  Character.isSpaceChar`. The age check therefore accepts digits such as
  Arabic-Indic ones but not mathematical bold ones. The phone regex accepts
  only the ten ASCII digits; `DetailsScreen.NonAsciiDigitsInDetails` shows
  the difference.

## Model

| member | source | states |
|---|---|---|
| `KotlinText.All` | app/src/main/java/com/example/profilescreen/DetailsScreen.kt:85 | the left-to-right `all` scan holds exactly when every character satisfies the predicate |
| `KotlinText.IsWhitespace` | app/src/main/java/com/example/profilescreen/DetailsScreen.kt:80 | a whitespace character lies in the Basic Multilingual Plane and is not a decimal digit |
| `KotlinText.IsBlank` | app/src/main/java/com/example/profilescreen/DetailsScreen.kt:80 | a string is blank exactly when every character is whitespace, the empty string included |
| `KotlinText.IsDigit` | app/src/main/java/com/example/profilescreen/DetailsScreen.kt:85 | every ASCII digit is a digit, and every digit is a single UTF-16 unit |
| `KotlinText.NonAsciiDigits` | app/src/main/java/com/example/profilescreen/DetailsScreen.kt:85 | `isDigit` accepts ARABIC-INDIC DIGIT THREE, which `[0-9]` rejects, and rejects MATHEMATICAL BOLD DIGIT ZERO, a surrogate pair |
| `KotlinText.MatchesDigitRun` | app/src/main/java/com/example/profilescreen/DetailsScreen.kt:90 | a whole-input match of `^[0-9]{n}$` accepts exactly the strings of length n made of ASCII digits |
| `KotlinText.BlankOrNotAllDigits` | app/src/main/java/com/example/profilescreen/DetailsScreen.kt:85 | the age test "blank or not all digits" holds exactly when the age is empty or contains a non-digit |
| `KotlinText.BlankNeverMatchesDigitRun` | app/src/main/java/com/example/profilescreen/DetailsScreen.kt:90 | a blank phone never matches the digit pattern, so the phone test reduces to the regex |
| `DetailsScreen.CheckDetails` | app/src/main/java/com/example/profilescreen/DetailsScreen.kt:73-93 | without a user the result is "User not authenticated"; any other result is one of the four validation messages |
| `DetailsScreen.CheckDetailsCases` | app/src/main/java/com/example/profilescreen/DetailsScreen.kt:73-93 | the checks run in order and the first failure wins, each direction stated. With no user the result is "User not authenticated" whatever the fields hold. A blank name gives "Name cannot be empty". Otherwise a bad age gives "Please enter a valid age". Otherwise a phone that is not ten ASCII digits gives "Please enter a valid 10-digit phone number". All checks pass exactly when none of these holds |
| `DetailsScreen.NonAsciiDigitsInDetails` | app/src/main/java/com/example/profilescreen/DetailsScreen.kt:85-90 | an age in Arabic-Indic digits passes validation, a phone containing one fails with the phone message, and an age in mathematical bold digits fails with the age message |
| `DetailsScreen.DetailsRecord` | app/src/main/java/com/example/profilescreen/DetailsScreen.kt:97-101 | the written record has exactly the keys name, age and phone, bound to the three field values |
| `DetailsScreen.SaveEnabled` | app/src/main/java/com/example/profilescreen/DetailsScreen.kt:185 | the save button is enabled in Idle, Success and Error, and only then |
| `DetailsScreen.DetailsViewModel.constructor` | app/src/main/java/com/example/profilescreen/DetailsScreen.kt:47-57 | all three fields start empty, the state starts Idle, and nothing has been written |
| `DetailsScreen.DetailsViewModel.UpdateName` | app/src/main/java/com/example/profilescreen/DetailsScreen.kt:59-61 | sets the name only; age, phone and save state are unchanged |
| `DetailsScreen.DetailsViewModel.UpdateAge` | app/src/main/java/com/example/profilescreen/DetailsScreen.kt:63-65 | sets the age only; name, phone and save state are unchanged |
| `DetailsScreen.DetailsViewModel.UpdatePhoneNumber` | app/src/main/java/com/example/profilescreen/DetailsScreen.kt:67-69 | sets the phone only; name, age and save state are unchanged |
| `DetailsScreen.DetailsViewModel.SaveUserDetails` | app/src/main/java/com/example/profilescreen/DetailsScreen.kt:71-116 | a failed check publishes only its Error and issues no write. After all checks pass, Loading is published and the record is written under `users/<uid>`. Each dispatched write adds one pending listener. If the call throws, Error with the exception's message or "An unexpected error occurred" follows, and nothing is written. The button is disabled afterwards exactly when a write is in flight |
| `DetailsScreen.DetailsViewModel.OnSaveSucceeded` | app/src/main/java/com/example/profilescreen/DetailsScreen.kt:106-108 | the success listener of a dispatched write publishes Success, and fires only while a dispatched write is pending |
| `DetailsScreen.DetailsViewModel.OnSaveFailed` | app/src/main/java/com/example/profilescreen/DetailsScreen.kt:109-111 | the failure listener of a dispatched write publishes Error with its message or "Failed to save details", and fires only while a dispatched write is pending |
| `DetailsScreen.ValidSaveScenario` | app/src/main/java/com/example/profilescreen/DetailsScreen.kt:71-108 | valid details on a fresh form publish Idle, Loading, Success and issue exactly one write of the three-field record under the user's node |
| `DetailsScreen.BlankNameScenario` | app/src/main/java/com/example/profilescreen/DetailsScreen.kt:80-83 | a blank name publishes only its Error after Idle and issues no write |
| `ProfileScreen.AppendedCopy` | app/src/main/java/com/example/profilescreen/profileScreen/ProfileViewModel.kt:136-137 | the list copy with one entry added is one longer, keeps the old list as its prefix and ends with the new entry |
| `ProfileScreen.ImageUpdateCalls` | app/src/main/java/com/example/profilescreen/profileScreen/ProfileViewModel.kt:49-61 | the upload, the URL request and the field write are issued in that order. Each is issued only if the one before it succeeded, and none is issued without a user |
| `ProfileScreen.ProfileViewModel.constructor` | app/src/main/java/com/example/profilescreen/profileScreen/ProfileViewModel.kt:25-39 | the fields start at the default profile, not editing, no uri and not loading, and then the initial fetch runs |
| `ProfileScreen.ProfileViewModel.ToggleEditMode` | app/src/main/java/com/example/profilescreen/profileScreen/ProfileViewModel.kt:41-43 | negates the edit-mode flag and changes nothing else |
| `ProfileScreen.ProfileViewModel.UpdateProfileImage` | app/src/main/java/com/example/profilescreen/profileScreen/ProfileViewModel.kt:45-73 | only when the user exists and upload, URL and field write all succeed do the image URL (nothing else in the profile) and the picked uri change. Otherwise both stay as they were, and an uploaded file is not removed. Loading goes on, then off |
| `ProfileScreen.ProfileViewModel.UpdateUserProfile` | app/src/main/java/com/example/profilescreen/profileScreen/ProfileViewModel.kt:75-109 | the written record is the current profile with name, username, bio and college replaced. Only an acknowledged write changes the local profile and turns edit mode off. With no user nothing is written and nothing changes. Loading goes on, then off |
| `ProfileScreen.ProfileViewModel.FetchUserProfile` | app/src/main/java/com/example/profilescreen/profileScreen/ProfileViewModel.kt:111-131 | a record that is found becomes the profile. A missing record gives the default profile with only the email set, from auth or "". A failed read or no user leaves the profile unchanged. Loading goes on, then off |
| `ProfileScreen.ProfileViewModel.AddHackathon` | app/src/main/java/com/example/profilescreen/profileScreen/ProfileViewModel.kt:133-143 | writes the local hackathon list with the new entry appended to `users/<uid>/hackathons` and changes no local field. With no user it writes nothing |
| `ProfileScreen.ProfileViewModel.AddProject` | app/src/main/java/com/example/profilescreen/profileScreen/ProfileViewModel.kt:145-155 | writes the local project list with the new entry appended to `users/<uid>/projects` and changes no local field. With no user it writes nothing |
| `ProfileScreen.ProfileViewModel.UpgradeToPremium` | app/src/main/java/com/example/profilescreen/profileScreen/ProfileViewModel.kt:157-165 | writes `isPremium = true` only when a user exists and changes no local field |
| `ProfileScreen.NewUserScenario` | app/src/main/java/com/example/profilescreen/profileScreen/ProfileViewModel.kt:45-73 | for a user with no record the profile is the default with the auth email; an image update whose field write fails still issues the upload, the URL request and the write, leaves the image URL and picked uri unset, and switches loading on and off once per operation |
| `DataModel.DefaultUserProfile` | app/src/main/java/com/example/profilescreen/profileScreen/DataModel.kt:5-15 | the default profile has all six strings empty, both lists empty, and isPremium false |
| `DataModel.WithEdits` | app/src/main/java/com/example/profilescreen/profileScreen/ProfileViewModel.kt:88-93 | the copy replaces name, username, bio and college, and keeps email, image URL, both lists and isPremium |
| `DataModel.WithImageUrl` | app/src/main/java/com/example/profilescreen/profileScreen/ProfileViewModel.kt:64 | the copy replaces the image URL and keeps every other field |
| `DataModel.WithEditsEquality` | app/src/main/java/com/example/profilescreen/profileScreen/DataModel.kt:5-15 | by structural equality, a copy equals the original exactly when the named fields already held the given values, and of two successive copies the later one wins |
| `DataModel.WithImageUrlEquality` | app/src/main/java/com/example/profilescreen/profileScreen/DataModel.kt:5-15 | the same two facts for the image URL copy |
| `DataModel.IdSource.constructor` | app/src/main/java/com/example/profilescreen/profileScreen/DataModel.kt:18 | a new id source has handed out no ids |
| `DataModel.IdSource.Fresh` | app/src/main/java/com/example/profilescreen/profileScreen/DataModel.kt:18 | each id handed out differs from every id handed out before |
| `DataModel.NewHackathon` | app/src/main/java/com/example/profilescreen/profileScreen/DataModel.kt:17-22 | a new hackathon gets a fresh id, and its name, description and date default to empty |
| `DataModel.NewProject` | app/src/main/java/com/example/profilescreen/profileScreen/DataModel.kt:24-29 | a new project gets a fresh id, and its name, description and GitHub link default to empty |
| `DataModel.TwoDefaultHackathons` | app/src/main/java/com/example/profilescreen/profileScreen/DataModel.kt:17-22 | two default hackathons are equal in every field but the id, and their ids differ |
| `Routes.Route` | app/src/main/java/com/example/profilescreen/AppRoute.kt:3-11 | every route string is a non-empty lower-case word |
| `Routes.AllRoutesComplete` | app/src/main/java/com/example/profilescreen/AppRoute.kt:3-11 | there are exactly seven routes, each listed once |
| `Routes.RouteInjective` | app/src/main/java/com/example/profilescreen/AppRoute.kt:4-10 | distinct routes have distinct route strings |
| `Routes.StartRouteStrings` | app/src/main/java/com/example/profilescreen/AppRoute.kt:4-10 | Login is "login", Home is "home" and Details is "details" |
| `Routes.FindRoute` | app/src/main/java/com/example/profilescreen/AppRoute.kt:4-10 | a search finds a listed route with the given string, or reports that none of the listed routes has it |
| `Routes.FromRoute` | app/src/main/java/com/example/profilescreen/AppRoute.kt:3-11 | looking a string up gives a route with that string, and gives nothing exactly when no route has it |
| `Routes.FromRouteRoundTrip` | app/src/main/java/com/example/profilescreen/AppRoute.kt:3-11 | looking up a route's own string returns that route |
| `Navigation.ResolveStart` | app/src/main/java/com/example/profilescreen/AppNavigation.kt:40-44 | the start destination is always Login, Details or Home |
| `Navigation.ResolveStartCases` | app/src/main/java/com/example/profilescreen/AppNavigation.kt:40-44 | Login exactly when signed out, whatever isNewUser is. Signed in, Details exactly when new and Home exactly when not |
| `Navigation.AppNavigation.StartDestination` | app/src/main/java/com/example/profilescreen/AppNavigation.kt:40-44 | the navigation's start destination is Login exactly when signed out; signed in, Details exactly when isNewUser holds, and Home otherwise |
| `Navigation.AppNavigation.constructor` | app/src/main/java/com/example/profilescreen/AppNavigation.kt:23-44 | isNewUser starts false, so before the lookup completes a signed-in user starts at Home and a signed-out one at Login. The lookup is issued only when signed in |
| `Navigation.AppNavigation.Compose` | app/src/main/java/com/example/profilescreen/AppNavigation.kt:23-37 | the lookup of `users/<uid>` is issued only for a signed-in user, keyed by the uid, and again only when the uid changes. isNewUser is untouched |
| `Navigation.AppNavigation.OnLookupComplete` | app/src/main/java/com/example/profilescreen/AppNavigation.kt:33-35 | isNewUser becomes true exactly when the lookup failed or found no value, and a signed-in user then starts at Details exactly when it is true |

## Left out

- Firebase itself: authentication, the database, file storage, `await`,
  and task listeners. Each call is recorded with its path, and its result
  is an outcome parameter. Decoding a stored record into a `UserProfile` is
  not modelled: the fetch's reply is given already decoded.
- Where the details write's call chain throws is not modelled: the
  model treats a thrown call as one that never reached the database, so no
  write is recorded for it.
- Concurrency: coroutines, `viewModelScope` and interleavings of launched
  bodies. Each body runs to completion. Neither view model has a guard
  against a second save while one is in flight; only the details button's
  `enabled` gate exists, and it is modelled by `DetailsScreen.SaveEnabled`.
- `StateFlow` observation: fields are plain fields. Conflation of published
  values is not modelled; the ghost traces list every assignment.
- Compose UI: every screen, the `NavHost` wiring, navigation and `Toast`
  side effects, `LaunchedEffect` reactions to the save state, image pickers
  and image loading. `ProfileScreen.kt` calls `toggleEditMode()` right after
  launching the profile update; that UI sequencing is not part of the
  controller model.
- `Log.e` calls: logging only.
- `Uri` and URL contents: opaque values.
- The fire-and-forget writes of `addHackathon`, `addProject` and
  `upgradeToPremium` are recorded as issued; their outcome is never
  observed by the app, so none is modelled.
- `DataModel.IdSource.Fresh`: models `UUID.randomUUID()` by a generator
  whose ids are distinct by construction (counting from zero, the k-th id
  has k characters).
  The UUID text format and its randomness are not modelled.
- `KotlinText.IsDigit`: follows the Unicode 15.0 table of category Nd. The
  Unicode version of the device's character tables may differ.
- Strings are sequences of Unicode code points, not of UTF-16 units. For
  `isBlank`, `isDigit` and `[0-9]` this changes no verdict: each rejects a
  character above U+FFFF, as each rejects both of its surrogate halves.
  Unpaired surrogates cannot be written as Dafny strings and are not
  modelled.
