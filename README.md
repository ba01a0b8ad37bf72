# Unitopia converter forms and review gating, in Dafny

Unitopia is a SwiftUI unit-converter app. Each of its converter screens is
the same small form:

- a static registry: `conversionTypes` names plus `unitTypes`, one unit row
  per category;
- four `@State` fields: the amount `input`, the category index
  `selectedUnits`, and the `inputUnit` / `outputUnit` pair;
- a category-change handler (`onChange(of: selectedUnits)`) that installs
  the new row's first two units;
- a `reset()` action;
- a rule for what the result line shows.

Two of the screens also count completed resets in `@AppStorage` and ask for
an App Store review at most once per app version (`experiencedReview()`).
Separately, `ReviewManager` and `DataController` keep a launch counter in
`UserDefaults` that requests a review every fourth launch when a window
scene is active. The tab bar's `Tab` enum gives each tab an index and an SF
Symbol name.

The model is organised as follows.

- `Units` names the Foundation units the registries use. The units are
  grouped by their `Dimension` subclass, since only units of one subclass
  convert into each other.
- `Form` holds the shared form as a class:
  - `Form.Form`'s fields are the four `@State` fields;
  - its methods are the controls, the change handler and the shared part
    of `reset()`;
  - each method is proved against `Form.Next`, a value-level specification
    of one action that follows SwiftUI's `onChange` rule: the handler runs
    only when `selectedUnits` actually changes value.
- One module per screen file instantiates the form:
  - with that file's registry and initial values;
  - with what that screen's controls offer and how it renders the result;
  - and proves that file's facts: registry shape, initial pair, reachable
    category, and the effects of reset.
- `AppStorage.Defaults` stands for the persisted keys, and
  `ReviewPrompt.ExperiencedReview` for the version-gated prompt.
- `ReviewManager` and `DataController` model the two copies of the launch
  counter. `ReviewManager.LaunchStep` is their common specification.
- `TabModel` models `Tab.index` and `systemImage`.

Conversion and formatting (`Measurement.converted(to:)` followed by a
`MeasurementFormatter`) are kept uninterpreted. Every form carries them as a
function value `convert`.

## Model

| member | source | states |
|---|---|---|
| Form.Next | Unitopia/Main/ContentView.swift:164-184 | Every action the controls allow keeps both selected units in the selected category's row. A reset always ends on amount 0 and category 0. Only the category picker and reset change the category. |
| Form.ChooseInstallsDefaultPair | Unitopia/Main/ContentView.swift:254-258 | Choosing category k selects k and keeps the amount. If k differs from the current category, the pair becomes (row k [0], row k [1]). If it is the same category, nothing changes, because `onChange` does not fire. |
| Form.StartOverIdempotent | Unitopia/Main/ContentView.swift:281-283 | Resetting the form a second time changes nothing. |
| Form.Form.constructor | Unitopia/Main/ContentView.swift:31-43 | The initial form has amount 0, category 0 and the screen's initial pair, taken from row 0. |
| Form.Form.EnterAmount | Unitopia/Main/ContentView.swift:192-194 | The amount field sets `input` and nothing else. This is `Next` of `Enter`. |
| Form.Form.CategoryChanged | Unitopia/Main/ContentView.swift:254-258 | The handler sets the pair to the selected row's first two units. |
| Form.Form.SelectCategory | Unitopia/Main/ContentView.swift:165-169 | The category becomes k. The handler runs only if k differs from the old category, so choosing the same category keeps the user's units. This is `Next` of `Choose(k)`. |
| Form.Form.PickInput | Unitopia/Main/ContentView.swift:172-177 | Only a unit of the selected row can be picked, and the invariant is kept. This is `Next` of `From(u)`. |
| Form.Form.PickOutput | Unitopia/Main/ContentView.swift:179-184 | Only a unit of the selected row can be picked, and the invariant is kept. This is `Next` of `To(u)`. |
| Form.Form.Reset | Unitopia/Main/ContentView.swift:281-283 | Amount 0 and category 0. The units return to row 0's default pair only when the old category was not 0; from category 0 they stay as the user left them. |
| Form.Form.Perform | Unitopia/Main/ContentView.swift:158-271 | Any allowed action gives exactly `Next`'s new state and keeps the invariant. |
| Form.PairSharesDimension | Unitopia/Main/ContentView.swift:143-147 | In every valid state the two selected units have the same dimension, so the conversion the result asks for is between compatible units. |
| MainContentView.RegistryShape | Unitopia/Main/ContentView.swift:78-137 | There are 6 names and 6 rows. Each row has at least two units of one dimension, and its first two units differ. |
| MainContentView.FirstLaunch | Unitopia/Main/ContentView.swift:31-69 | A fresh install starts at amount 0 on Temperature with (fahrenheit, celsius), which is exactly row 0's first two units. Both stored versions are "1.2.2" and the count is 0. |
| MainContentView.StartOverEnabled | Unitopia/Main/ContentView.swift:219 | "Start Over" is enabled exactly when the amount is not 0. While it is disabled, the unfocused result is "--". |
| MainContentView.Reset | Unitopia/Main/ContentView.swift:281-299 | `reset()` applies the form's reset and adds exactly 1 to `processCompletedCount`. It prompts iff the new count is at least 3 and the current version differs from the last prompted one, and it then records the current version. Afterwards the result line shows "--", focused or not. |
| MainContentView.Perform | Unitopia/Main/ContentView.swift:158-286 | Every action performs `Next` on the form. After Start Over the unfocused result is "--"; after typing a non-zero amount it is that amount converted between the selected units. Only a confirmed "Start Over" touches the counter. Nothing writes `currentAppVersion`, so a store whose two versions agree, as the defaults do, never prompts and keeps them agreeing. |
| MainContentView.PickThenStartOver | Unitopia/Main/ContentView.swift:254-286 | From a fresh install: pick an output unit, type a non-zero amount, then Start Over. The picked pair survives the reset, because the category was already 0, and no review is prompted. |
| ViewConversionView.RegistryShape | Unitopia/View/ConversionView.swift:38-85 | There are 6 names and 6 well-formed rows, and the Volume row has 5 units. |
| ViewConversionView.FirstLaunch | Unitopia/View/ConversionView.swift:15-32 | The initial state is amount 0, category 0 and (fahrenheit, celsius), which is row 0's first two units. Both stored versions are "1.2.1". |
| ViewConversionView.StartOverEnabled | Unitopia/View/ConversionView.swift:188 | "Start Over" is enabled exactly when the amount is not 0. |
| ViewConversionView.Reset | Unitopia/View/ConversionView.swift:249-262 | The form's reset, the counter plus 1, then the version-gated prompt. Afterwards the result line shows "--", focused or not. |
| ViewConversionView.Perform | Unitopia/View/ConversionView.swift:118-254 | Every action performs `Next`. After Start Over the unfocused result is "--"; after typing a non-zero amount it is that amount converted. Only reset touches storage. Storage with equal versions never prompts. |
| ViewsConversionView.RegistryShape | Unitopia/Views/ConversionView.swift:23-62 | There are 5 names and 5 well-formed rows. |
| ViewsConversionView.Open | Unitopia/Views/ConversionView.swift:13-16 | The initial state is amount 0, category 0 and (fahrenheit, celsius), which is row 0's first two units. |
| ViewsConversionView.Perform | Unitopia/Views/ConversionView.swift:93-184 | Every action performs `Next` and keeps both units in the selected row. The focused result is always ""; after "Reset" the unfocused result is the conversion of 0, not a placeholder. "Reset" changes only the amount and the category, plus the units through the handler when the category was not 0. There is no counter. |
| HomeView.RegistryShape | Unitopia/Views/HomeView.swift:26-55 | There are 5 names and 5 well-formed rows, and the Speed row has exactly two units. |
| HomeView.InitialPairReversesDefault | Unitopia/Views/HomeView.swift:21-32 | The initial (celsius, fahrenheit) lies in row 0 but is the reverse of row 0's default pair. |
| HomeView.Screen.constructor | Unitopia/Views/HomeView.swift:19-23 | The initial state is amount 0, category 0, (celsius, fahrenheit) and an empty history. |
| HomeView.Perform | Unitopia/Views/HomeView.swift:61-166 | Every action performs `Next`. After reset the result section shows the conversion of 0, focused or not, with no placeholder. Choosing a different category installs its default pair. Reset gives amount 0 and category 0, with (fahrenheit, celsius) only if another category was selected. The history stays empty. |
| HomeView.ChooseThenReset | Unitopia/Views/HomeView.swift:151-166 | A reset after visiting another category yields (fahrenheit, celsius), which is not the initial pair. A reset without leaving Temperature keeps the initial pair. |
| TemperatureView.RegistryShape | Unitopia/Views/TemperatureView.swift:17-20 | There is a single well-formed row of the three temperature units. |
| TemperatureView.Open | Unitopia/Views/TemperatureView.swift:11-14 | The initial state is amount 0, category 0 and (celsius, fahrenheit), which is the row's first two units. |
| TemperatureView.Perform | Unitopia/Views/TemperatureView.swift:26-90 | After reset the result shows the conversion of 0, focused or not. There is no category picker, so the category stays 0 and the handler never fires. The units change only through their own picker, both stay in the row, and reset only zeroes the amount. |
| DistanceView.RegistryShape | Unitopia/Views/DistanceView.swift:17-45 | There are three well-formed rows, and row 0 is the Length row. |
| DistanceView.InitialPairNotRowDefault | Unitopia/Views/DistanceView.swift:13-29 | (kilometers, miles) lies in the Length row but is not its first two units. |
| DistanceView.Open | Unitopia/Views/DistanceView.swift:11-14 | The initial state is amount 0, category 0 and (kilometers, miles). |
| DistanceView.Perform | Unitopia/Views/DistanceView.swift:51-136 | After reset the result shows the conversion of 0, focused or not. The category stays 0, so only the Length row is offered and both units stay in it. Reset zeroes the amount and leaves the units. |
| TimeView.RegistryShape | Unitopia/Views/TimeView.swift:17-39 | There are three well-formed rows, and row 0 is the Duration row of 3 units. |
| TimeView.InitialPairNotRowDefault | Unitopia/Views/TimeView.swift:13-23 | (hours, seconds) lies in the Duration row but is not its first two units. |
| TimeView.Open | Unitopia/Views/TimeView.swift:11-14 | The initial state is amount 0, category 0 and (hours, seconds). |
| TimeView.Perform | Unitopia/Views/TimeView.swift:45-130 | After reset the result shows the conversion of 0, focused or not. The category stays 0, so only the Duration row is offered and both units stay in it. Reset zeroes the amount and leaves the units. |
| AppStorage.Defaults.constructor | Unitopia/Main/ContentView.swift:63-69 | In an unwritten store the counters read 0 and the versions read the declared defaults. |
| ReviewPrompt.ExperiencedReview | Unitopia/Main/ContentView.swift:293-299 | It prompts iff the count is at least 3 and the versions differ, and it then records the current version. Afterwards a second call would not prompt. |
| ReviewManager.LaunchStep | Unitopia/Managers/ReviewManager.swift:18-40 | A review is requested exactly when the count is at least 3 and a scene is active, and the count then becomes 0. Otherwise the count goes up by 1 if it was below 3 and stays as it was if not. A count in 0..3 stays in 0..3. |
| ReviewManager.EveryFourthCall | Unitopia/Managers/ReviewManager.swift:18-40 | From 0, with a scene always active, the count after n calls is n mod 4, and exactly every fourth call requests a review. |
| ReviewManager.StuckWithoutScene | Unitopia/Managers/ReviewManager.swift:32-36 | At 3 or more without an active scene, any number of calls leaves the count unchanged. |
| ReviewManager.RequestReview | Unitopia/Managers/ReviewManager.swift:28-42 | The stored count and the decision are `LaunchStep` of the old count and the scene. |
| DataController.RequestReview | Unitopia/DataController.swift:15-30 | Below 3 the count goes up by 1 with no request. At 3 or more it requests exactly when a scene is active. The count stays in 0..3. For every input, the stored count and the decision equal `ReviewManager.requestReview()`'s. |
| TabModel.FirstIndex | Unitopia/Models/TabModel.swift:31 | `firstIndex(of:)`: a result exists iff the element occurs, and it is the position of the element's first occurrence. |
| TabModel.Index | Unitopia/Models/TabModel.swift:30-32 | `index` is a position in `allCases` that holds the tab, so the `?? 0` fallback is never taken. |
| TabModel.IndexIsDeclarationOrder | Unitopia/Models/TabModel.swift:11-15 | home is 0, saved 1, feedback 2 and settings 3. |
| TabModel.IndexInjective | Unitopia/Models/TabModel.swift:30-32 | Distinct tabs have distinct indices. |
| TabModel.CasesDistinct | Unitopia/Models/TabModel.swift:11-28 | Distinct tabs have distinct raw values and distinct `systemImage` names. |

## Left out

- Unit conversion and formatting are not modelled. `Measurement.converted(to:)` and `MeasurementFormatter` are Foundation code and floating point, so they are an uninterpreted `convert` function, and no numeric result is stated. The repository itself does no conversion arithmetic.
- `presentReview()` is left out. It waits with an asynchronous `Task.sleep` before calling StoreKit, so only the decision to prompt is modelled.
- `UserDefaults`, `@AppStorage`, `UIApplication.connectedScenes` and `SKStoreReviewController` are platform calls. They are replaced by the fields of `AppStorage.Defaults` and a `sceneActive` flag, and `UserDefaults.synchronize()` is not modelled.
- Focus state (`@FocusState`) is a parameter of the display rules.
- The keyboard "Done" button that clears focus is not modelled.
- Haptics (`prepareHaptics`, `complexHaptics`) are not modelled. They use CoreHaptics with floating-point parameters and have no effect on the form.
- The reset confirmation alerts (`showResetAlert`) are not modelled. A confirmed "Start Over" is the `StartOver` action, and a cancelled one changes nothing.
- The dark-mode toggle (`isDarkMode`) is not modelled, nor the selection and layout state that affects only presentation.
- The `if #available(iOS 17.0, *)` guards of Unitopia/Main/ContentView.swift and Unitopia/View/ConversionView.swift have no `else`: before iOS 17 those screens show no form. The model covers only the iOS 17 path.
- The "Save" buttons of the Temperature, Distance and Time screens are not modelled, because their actions are empty.
- The `UUID` identity of `HistoryItem` is not modelled. The history feature is commented out, so the list is only shown to stay empty.
- In SwiftUI, the change handler runs after `reset()` returns, and so after `experiencedReview()`. The model runs it inside the form's reset. The two touch disjoint state, so the order makes no difference.
- ReviewPrompt.ExperiencedReview: the versions are compared with Dafny's code-point equality on strings, while Swift's `String` `!=` uses Unicode canonical equivalence. The two differ only for canonically equivalent but differently encoded strings (for example a precomposed "é" against "e" followed by a combining accent). The app stores only its ASCII defaults and copies of `currentAppVersion`, so this case does not arise there. The same holds for `MainContentView.Reset`, `ViewConversionView.Reset` and both `Perform` methods built on it.
- The amount `input` is a Swift `Double`, modelled as a `real`. The code only assigns 0.0 to it and compares it with 0. In Swift -0.0 equals 0 and NaN does not, so every value takes the same branch of the display and enable rules as in the model. Infinities, NaN and rounding are otherwise not modelled.
- MainContentView.Reset: Swift's `+=` on `Int` traps when `processCompletedCount` is `Int.max`. This overflow is not modelled; the counter is an unbounded integer.
- ViewConversionView.Reset: the same `Int.max` trap on `processCompletedCount` is not modelled.
- `launchCount += 1` in both copies of the launch counter runs only when the count is below 3, so it cannot overflow `Int` for any stored value; modelling the count as an unbounded integer loses nothing.
- The tab shell, welcome and splash screens, settings, feedback, the drop-down and test views, the tab-position preference key and the button styles are not modelled. They are presentation only, with no state the form depends on.
