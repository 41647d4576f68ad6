# Health and wellness front end: screen state machines

This project models the client-side logic of a single-page health-tracking
application. Six screens each keep a few state fields. Their event handlers
update those fields: an exercise logger, a food logger, a goal/progress
tracker, a nutrition-goal form, a profile page and a login/register page.
Each screen is a Dafny `class` whose fields are the component's state hooks.
Each event handler is a `method` whose `modifies` clause names exactly the
fields the handler can change. The pure parts are `function`s: the calorie
table, the chart projections, the endpoint and body selection, the Save-button
rule and the notification colour.

No request is performed. A handler that issues a request takes, as a
parameter, what that request settled to (module `Http`):

- `AxiosResult` is used for axios calls. A call either resolves with a 2xx
  status and its data, or rejects. A rejection carries the server's `message`
  when a response arrived and nothing when no response arrived.
- `FetchResult` is used for `fetch` followed by `response.json()`. The body
  either parses (with its status and `message` field), or fails to parse, or
  the network fails.

Two outcome types are used because the two client libraries differ. axios
rejects every non-2xx status. `fetch` resolves for every status, and these screens parse the body before
looking at `ok`, so a body that is not JSON lands in `catch`.

Every screen also keeps a ghost log `requests` of the requests it has issued.
The exercise logger additionally keeps a ghost log `toasts` of the toasts it
has raised. With these logs, "no POST is made", "exactly one refresh follows"
and "an error toast appears" become postconditions.

Numeric inputs are modelled as `int`. In the source every input value is the
string `e.target.value`, and JavaScript coerces it when it compares or
multiplies (`duration <= 0`, `duration * 10`).

Behaviours of the code worth noting:

- The third exercise type is `"Strength Training"`, with a space.
- The goal/progress tracker shows its success message without looking at the
  response status.
- Neither goal screen resets its form after a submit.
- The exercise list refresh only logs its failure to the console; it raises no
  notification.
- The food logger prefixes the server's message with `"Error: "`. The
  nutrition-goal screen shows the message as it is.

The profile page keeps the user record as a map from top-level keys to values,
because its two selects are named `"preferences.unit"` and
`"preferences.goal"`. The shared change handler writes `[name]: value`, so a
selection adds a top-level key spelled with a dot. The nested `preferences`
record, which the selects display, is never modified.
`Profiles.PreferenceSelectsMissNestedRecord` states this as written.

## Model

| member | source | states |
|---|---|---|
| Exercise.CalculateCalories | src/components/FitnessLog.js:36-52 | duration × 10 for Running, × 8 for Cycling, × 6 for Strength Training; 0 for any other type; 0 at duration 0; for a positive duration, positive exactly when the type is one of the three |
| Exercise.Labels | src/components/FitnessLog.js:105-106 | one label per log, in order: label i is log i's exercise type |
| Exercise.Values | src/components/FitnessLog.js:107-110 | one value per log, in order: value i is log i's calories burned |
| Exercise.CaloriesChart | src/components/FitnessLog.js:186-190 | placeholder exactly when the list is empty; otherwise labels and values both have the list's length and line up by position with the same log |
| Exercise.FitnessLog.constructor | src/components/FitnessLog.js:21-27 | form starts at {Running, 0, 0}, list empty, no toast, no request |
| Exercise.FitnessLog.HandleInputChange | src/components/FitnessLog.js:30-33 | the named field takes the input's value; the other two fields and the rest of the state are unchanged |
| Exercise.FitnessLog.HandleSubmit | src/components/FitnessLog.js:55-88 | duration ≤ 0 or distance < 0: no request, error toast, form and list unchanged; otherwise the POST body copies the form and adds its calories; success: success toast, form reset to the default, then exactly one GET whose outcome decides the list; failure: error toast, form and list unchanged |
| Exercise.FitnessLog.FetchExerciseLogs | src/components/FitnessLog.js:91-102 | one GET issued; a successful one replaces the list wholesale, a failed one keeps the previous list |
| Food.NutritionChart | src/components/NutritionTracker.js:50-59 | labels Calories/Protein/Carbs/Fat; each value is the amount of the nutrient its label names, taken from the record being edited (not the logged list) |
| Food.NutritionTracking.constructor | src/components/NutritionTracker.js:5-15 | default record {"", 0, 0, 0, 0, breakfast}, popup closed, logged list empty |
| Food.NutritionTracking.HandleInput | src/components/NutritionTracker.js:100-175 | each input replaces only its own field of the record; the other five are unchanged |
| Food.NutritionTracking.HandleSubmit | src/components/NutritionTracker.js:17-48 | the record is posted; ok: the list grows by exactly the submitted record at the end, the form resets to the default, success popup; not ok: popup "Error: " + server message, form and list unchanged; unparsable body or network failure: generic error popup, form and list unchanged |
| Food.NutritionTracking.ClosePopup | src/components/NutritionTracker.js:82-87 | popup becomes {false, "", ""}; nothing else changes |
| NutritionTargets.GoalsChart | src/components/NutritionGoals.js:43-55 | labels Calories/Protein/Carbs/Fat; each value is the goal for the nutrient its label names |
| NutritionTargets.NutritionGoals.constructor | src/components/NutritionGoals.js:9-16 | goals start at {2000, 100, 250, 70}, popup closed |
| NutritionTargets.NutritionGoals.HandleInput | src/components/NutritionGoals.js:95-135 | each input replaces only its own goal; the other three are unchanged |
| NutritionTargets.NutritionGoals.HandleGoalSubmit | src/components/NutritionGoals.js:18-40 | the goals are posted and never changed; ok: {true, "Goal successfully set!", success}; not ok: error popup with the server's message verbatim; exception: generic error popup |
| NutritionTargets.NutritionGoals.ClosePopup | src/components/NutritionGoals.js:82-88 | popup becomes {false, "", ""} |
| GoalTracker.ChartOf | src/components/GoalTracking.js:88-106 | labels Today/This Week; the steps series is [dailySteps, 100] and the calories series [calorieIntake, 100]: only the Today point follows the progress record |
| GoalTracker.GoalTracking.constructor | src/components/GoalTracking.js:21-35 | goals {10000, 5, 2000}, progress {0, 0, 0}, isGoalSet false, modal closed with empty message |
| GoalTracker.GoalTracking.HandleGoalChange | src/components/GoalTracking.js:37-40 | only the named goal changes; progress and the flags are untouched |
| GoalTracker.GoalTracking.HandleProgressChange | src/components/GoalTracking.js:42-45 | callable only while the progress form is shown (isGoalSet); only the named progress field changes; goals are untouched |
| GoalTracker.GoalTracking.HandleGoalSubmit | src/components/GoalTracking.js:47-66 | isGoalSet becomes true whatever the outcome; the goals are posted; a parsed body of any status gives the success message, an exception the error message; the modal is shown; goals and progress unchanged |
| GoalTracker.GoalTracking.HandleProgressSubmit | src/components/GoalTracking.js:68-86 | callable only while the progress form is shown; the progress record is posted; the success or error message as above, modal shown; goals, progress and isGoalSet unchanged |
| GoalTracker.GoalTracking.CloseModal | src/components/GoalTracking.js:108-111 | modal hidden and message emptied |
| Profiles.ApplyChange | src/pages/Profile.js:60-63 | the top-level key equal to the input name holds the new value; every other key keeps its value; no key is removed |
| Profiles.PreferenceSelectsMissNestedRecord | src/pages/Profile.js:165-198 | selecting through "preferences.unit" or "preferences.goal" writes a top-level key with that literal name; the nested preferences record, and what the selects display, stay as they were |
| Profiles.SaveEnabled | src/pages/Profile.js:201-207 | the Save button is enabled exactly when editing and not loading |
| Profiles.NotificationClass | src/pages/Profile.js:85 | green exactly for a success notification, red otherwise |
| Profiles.HealthSection | src/pages/Profile.js:219-236 | placeholder exactly when the health history is empty; otherwise the whole history in order |
| Profiles.ProfilePage.constructor | src/pages/Profile.js:5-19 | default record with name, email and password empty and preferences {metric, maintain}; not editing, not loading, empty history and notification |
| Profiles.ProfilePage.FetchUserData | src/pages/Profile.js:23-37 | one GET; success replaces the user record; failure keeps it and sets the error notification; loading ends false |
| Profiles.ProfilePage.FetchHealthData | src/pages/Profile.js:39-53 | one GET; success replaces the history; failure keeps it and sets the error notification; loading ends false |
| Profiles.ProfilePage.HandleChange | src/pages/Profile.js:60-63 | callable only in edit mode (the inputs are disabled otherwise); the user record becomes ApplyChange of the old record; nothing else changes |
| Profiles.ProfilePage.HandleSubmit | src/pages/Profile.js:66-82 | callable only while Save is enabled (editing, not loading); the whole record is PUT and not changed; success: edit mode off, "Profile updated successfully!" (success); failure: still in edit mode, "Failed to update profile!" (error); loading false on both paths |
| Profiles.ProfilePage.ToggleEditing | src/pages/Profile.js:208-214 | edit mode flips; nothing else changes |
| Profiles.ProfilePage.TogglePassword | src/pages/Profile.js:155-161 | password visibility flips; nothing else changes |
| Profiles.ProfilePage.NotificationTimeout | src/pages/Profile.js:88-93 | a notification with a message is cleared to empty message and type; otherwise unchanged |
| Auth.Endpoint | src/pages/LoginRegisterPage.js:23 | the login URL exactly in login mode, the register URL otherwise |
| Auth.RequestBody | src/pages/LoginRegisterPage.js:26-30 | email and password always, username exactly when registering, no other field |
| Auth.LoginRegisterPage.constructor | src/pages/LoginRegisterPage.js:5-12 | login mode, empty form, no success message and no error (the invariant holds) |
| Auth.LoginRegisterPage.HandleChange | src/pages/LoginRegisterPage.js:15-18 | only the named field changes; the invariant is kept |
| Auth.LoginRegisterPage.ToggleMode | src/pages/LoginRegisterPage.js:120-130 | the mode flips; the form data is unchanged |
| Auth.LoginRegisterPage.HandleSubmit | src/pages/LoginRegisterPage.js:21-45 | posts Endpoint/RequestBody of the current mode; status 200: the mode's success message, error cleared; another 2xx status: neither message changes; rejection: the server's message or "An error occurred", success cleared; success and error are never both set |
| Auth.LoginRegisterPage.SuccessTimeout | src/pages/LoginRegisterPage.js:37 | the success message is hidden; the invariant is kept |

## Left out

- Network calls are not performed. Base URLs, headers, JSON encoding and the bearer token read from local storage are left out. So is the doubled slash in the progress URL (src/components/GoalTracking.js:71). Only the login and register URLs are modelled, because the page chooses between them.
- Server bodies are assumed to carry a string `message`. A body without one is not modelled; the screens would then differ:
  - the food logger's popup reads "Error: undefined";
  - the nutrition-goal screen shows an empty error popup, because the popup's message is `undefined` and renders as nothing;
  - the login/register page shows no message at all, because `error` becomes `undefined`, which the banner treats as absent, while the success message is cleared.
- An axios response body that is not JSON is not modelled. axios does not throw for it.
- Timers are modelled as explicit events only: `NotificationTimeout` (the 5-second clear) and `SuccessTimeout` (the 3-second clear). The toast library's auto-dismiss is not modelled. Nor is a timer firing after a newer message replaced the one it was set for.
- Async interleavings are not modelled. Each submit or fetch is one method that runs to completion with its outcome. Left out are double submits while a request is in flight, stale closures over state (which can lose an append in the food logger), the two Profile mount fetches sharing one `isLoading` flag, and updates after unmount.
- Profiles.ProfilePage.HandleSubmit: the interval during which `isLoading` is true (and Save is therefore disabled) lies inside the method and is not observable; the contract states only that loading is false on both exit paths.
- Profiles.ProfilePage.FetchUserData: the same holds for the in-flight `isLoading`. A fetched record without a nested `preferences` object would make the real page throw while rendering. The model only reports such a record as having no selected unit or goal (`SelectedUnit`, `SelectedGoal`).
- Profiles.ProfilePage.FetchHealthData: the same holds for the in-flight `isLoading`.
- Console logging, `e.preventDefault()`, JSX, styling, Chart.js options and colours, and the toast container are left out. Only the label/value projections of the charts are modelled.
- String-to-number coercion is left out, and so are fractional values. Numeric fields are `int`.
- The mount effects are not methods of their own. A mounted screen is its constructor followed by its fetch methods (`FetchExerciseLogs`; `FetchUserData` and `FetchHealthData`).
- Static and routing files are not part of this model: src/pages/ContactPage.js (its submit only logs to the console), About.js, PrivacyPolicy.js, Footer.js, Home.js, src/components/Navbar.js and src/App.js.
- The commented-out historical copies in src/pages/Profile.js (from line 243) and src/components/FitnessLog.js (from line 197) are dead code and are not modelled.
