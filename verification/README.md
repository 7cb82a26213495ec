# weather_checklist: navigation tables, feature cards, checklist and upload dialog

A Dafny model of the logic inside a small React Native app: a drawer navigator
whose first area is a stack of four feature screens, a home screen of feature
cards, a checklist screen and a video-upload screen. The rest of the app is
layout, styling and a weather fetch, and is not modelled.

- `Routes` (`routes.dfy`) holds the route names of `src/navigation/types.ts`.
  Each navigator's names are a closed datatype: `DrawerRoute` (`MainStack`,
  `Login`, `SignUp`) and `StackRoute` (`Home`, `FeatureOne`, `FeatureTwo`,
  `FeatureThree`). `RootRoute` (`Auth`, `Main`) is declared too, but no
  navigator registers it. Each param list is a map from name to parameter
  type. The only parameter type is `Undefined`, so every route takes no
  parameters by construction. Parsing a string into each of the three
  enumerations accepts exactly that param list's keys.
- `Navigation` (`navigation.dfy`) holds `src/navigation/index.tsx`.
  - `HeaderLeft` decides from a route's name: the drawer toggle for `Home`,
    back-navigation for every other name.
  - Both navigators are modelled the same way: shared `screenOptions`, overridden
    field by field by each screen's own `options`.
  - The stack's screen table gives titles and the single right-hand control,
    on `FeatureThree`.
  - The drawer's area table hides the header by default. `Login` and `SignUp`
    show their header and turn off the swipe gesture.
- `Home` (`home.dfy`) holds the feature-card table of `HomeScreen.tsx`.
  Pressing a card requests navigation to its `screen` string unchecked. Three
  cards name registered stack screens. The Widgets card names `""`, which no
  navigator registers, and the TypeScript cast hides this. The model records
  that target as unregistered and does not guess which screen was meant.
- `Checklist` (`checklist.dfy`) holds `FeatureThreeScreen.tsx`.
  - `Toggled` and `Deleted` are pure list functions, the `map` and `filter`
    of the handlers.
  - The class `ChecklistScreen` holds the two state fields, `items` and
    `newItem`, and the handlers that replace them.
  - An item's id comes from the clock in the app. Here it is a parameter of
    `AddItem`. Ids need not be unique, so toggle and delete act on every item
    that carries the id.
- `JsString` (`js_string.dfy`) models JavaScript's `String.prototype.trim`.
  It removes the characters of the WhiteSpace and LineTerminator productions
  of ECMA-262 from both ends. `TrimOf` characterises it fully.
- `VideoUpload` (`video_upload.dfy`) holds `FeatureOneScreen.tsx`. The class
  `FeatureOneScreen` holds `isModalVisible` and `selectedCard`. Its handlers
  are the card press, the Cancel button and request-close of the dialog, and
  the image picker's completion callback. The invariant `Valid` says that the
  dialog never shows without a selected card.

Two properties of the code are worth stating plainly.
- `HeaderLeft` compares the route's name with `"Home"`. It does not look at
  the stack's history.
- The Widgets card's `""` reaches `navigate` unchecked. Nothing rejects an
  unregistered route name at startup.

## Model

| member | source | states |
|---|---|---|
| `Routes.RootRouteName` | src/navigation/types.ts:1-4 | each root route's name is a key of RootStackParamList |
| `Routes.DrawerRouteName` | src/navigation/types.ts:6-10 | each area's name is a key of DrawerParamList |
| `Routes.StackRouteName` | src/navigation/types.ts:12-17 | each stack screen's name is a key of MainStackParamList |
| `Routes.ParseRootRoute` | src/navigation/types.ts:1-4 | a string names a root route exactly when it is a RootStackParamList key, and then it is that route's name |
| `Routes.RootRouteNameRoundTrip` | src/navigation/types.ts:1-4 | a root route's name parses back to that route, so Auth and Main have distinct names |
| `Routes.ParseDrawerRoute` | src/navigation/types.ts:6-10 | a string names an area exactly when it is a DrawerParamList key, and then it is that area's name |
| `Routes.ParseStackRoute` | src/navigation/types.ts:12-17 | a string names a stack screen exactly when it is a MainStackParamList key, and then it is that screen's name |
| `Routes.DrawerRouteNameRoundTrip` | src/navigation/types.ts:6-10 | an area's name parses back to that area, so area names are distinct |
| `Routes.StackRouteNameRoundTrip` | src/navigation/types.ts:12-17 | a screen's name parses back to that screen, so screen names are distinct |
| `Routes.DrawerNamesAreExactly` | src/navigation/types.ts:6-10 | the drawer's names are exactly MainStack, Login and SignUp, each the name of an area |
| `Routes.StackNamesAreExactly` | src/navigation/types.ts:12-17 | the stack's names are exactly Home, FeatureOne, FeatureTwo and FeatureThree, each the name of a screen |
| `Routes.NamespacesDisjoint` | src/navigation/types.ts:1-17 | area names and screen names are disjoint, and Auth and Main belong to neither navigator |
| `Navigation.HeaderLeft` | src/navigation/index.tsx:21-44 | the control is the drawer toggle exactly when the route name is the Home stack screen's name, back-navigation for every other name (registered or not) |
| `Navigation.HeaderLeftTogglesOnlyOnHome` | src/navigation/index.tsx:21-44 | the left control is the drawer toggle exactly on Home and back-navigation on every other stack screen |
| `Navigation.EffectiveOptions` | src/navigation/index.tsx:48-58 | a route gets options exactly when the navigator registers its name |
| `Navigation.StackHeader` | src/navigation/index.tsx:46-101 | a route name gets a stack header exactly when the stack registers it |
| `Navigation.StackHeaderOfEveryScreen` | src/navigation/index.tsx:48-85 | every stack screen gets the shared HeaderLeft decision for its own name, and its registered title (My App, Video Upload, Weather, Checklist) |
| `Navigation.OnlyFeatureThreeHasHeaderRight` | src/navigation/index.tsx:60-98 | a stack screen has a right header control exactly when it is FeatureThree |
| `Navigation.StackRegistrationMatchesParamList` | src/navigation/index.tsx:60-98 | the stack registers each MainStackParamList key once and nothing else, Home first |
| `Navigation.DrawerRegistrationMatchesParamList` | src/navigation/index.tsx:128-150 | the drawer registers each DrawerParamList key once and nothing else, MainStack first |
| `Navigation.AreaFlags` | src/navigation/index.tsx:116-150 | headerShown is false for MainStack and true for Login and SignUp; swipeEnabled is false for Login and SignUp and left at the library default for MainStack |
| `Home.CardPress` | src/screens/HomeScreen.tsx:60 | a card's press requests navigation to exactly the card's screen string, unchanged; it names a stack screen exactly when that string is a MainStackParamList key, and nothing else validates it |
| `Home.FeatureIdsDistinct` | src/screens/HomeScreen.tsx:26-55 | there are four cards, with ids "1" to "4", pairwise distinct |
| `Home.FirstThreeCardsReachFeatures` | src/screens/HomeScreen.tsx:26-47 | cards 1, 2 and 3 open FeatureOne, FeatureTwo and FeatureThree |
| `Home.WidgetsCardTargetUnregistered` | src/screens/HomeScreen.tsx:48-60 | the Widgets card requests the route "", which no param list declares; it is the only card without a stack screen target |
| `JsString.Trim` | src/screens/FeatureThreeScreen.tsx:27 | trim yields the empty string exactly when the input is all whitespace, and otherwise a string that neither starts nor ends with whitespace |
| `JsString.TrimOf` | src/screens/FeatureThreeScreen.tsx:32 | trim returns the core of any whitespace + core + whitespace decomposition, whose core neither starts nor ends with whitespace |
| `JsString.TrimIdempotent` | src/screens/FeatureThreeScreen.tsx:32 | trimming the trimmed text changes nothing |
| `Checklist.NewItem` | src/screens/FeatureThreeScreen.tsx:30-34 | the added item carries the given id and is not completed; its text is no longer than the input, is empty exactly when the add button is disabled, and otherwise neither starts nor ends with whitespace |
| `Checklist.AddButtonDisabled` | src/screens/FeatureThreeScreen.tsx:96 | the add button is disabled exactly when the input is all whitespace |
| `Checklist.Toggled` | src/screens/FeatureThreeScreen.tsx:41-47 | toggling keeps length, order, ids and texts, flips completed on every item with the id and leaves every other item as it was |
| `Checklist.ToggleTwice` | src/screens/FeatureThreeScreen.tsx:41-47 | toggling the same id twice restores the list |
| `Checklist.Deleted` | src/screens/FeatureThreeScreen.tsx:49-51 | no item with the id survives deletion, and the list does not grow |
| `Checklist.DeletedContents` | src/screens/FeatureThreeScreen.tsx:49-51 | deletion removes every occurrence of the items with the id and keeps every other item as often as it occurred |
| `Checklist.DeletedConcat` | src/screens/FeatureThreeScreen.tsx:50 | deleting from a concatenation deletes from each part, so the survivors keep their order |
| `Checklist.DeleteAbsentIsNoOp` | src/screens/FeatureThreeScreen.tsx:50 | deleting an id no item carries leaves the list unchanged |
| `Checklist.DeleteIdempotent` | src/screens/FeatureThreeScreen.tsx:49-51 | deleting the same id twice is deleting it once |
| `Checklist.ChecklistScreen.constructor` | src/screens/FeatureThreeScreen.tsx:23-24 | the screen starts with an empty list and an empty input |
| `Checklist.ChecklistScreen.ChangeText` | src/screens/FeatureThreeScreen.tsx:89 | typing replaces the input and leaves the list alone |
| `Checklist.ChecklistScreen.AddItem` | src/screens/FeatureThreeScreen.tsx:26-39 | with all-whitespace input nothing changes; otherwise exactly one item (the given id, the trimmed text, not completed) is appended after the unchanged earlier items and the input is cleared; the state stays unchanged exactly when the add button is disabled |
| `Checklist.ChecklistScreen.ToggleItem` | src/screens/FeatureThreeScreen.tsx:41-47 | the list becomes its toggled version and the input is kept |
| `Checklist.ChecklistScreen.DeleteItem` | src/screens/FeatureThreeScreen.tsx:49-51 | the list becomes its filtered version and the input is kept |
| `VideoUpload.VideoCardIdsDistinct` | src/screens/FeatureOneScreen.tsx:29-54 | there are four video cards, with ids "1" to "4", pairwise distinct |
| `VideoUpload.ClassifyResponse` | src/screens/FeatureOneScreen.tsx:67-76 | the callback's branch is cancellation iff the response was cancelled, an error iff not cancelled and an error code is set, and the first asset iff neither and an asset exists |
| `VideoUpload.FeatureOneScreen.constructor` | src/screens/FeatureOneScreen.tsx:26-27 | the dialog starts hidden with no card selected |
| `VideoUpload.FeatureOneScreen.HandleCardPress` | src/screens/FeatureOneScreen.tsx:56-59 | pressing a card selects it and shows the dialog |
| `VideoUpload.FeatureOneScreen.CloseModal` | src/screens/FeatureOneScreen.tsx:105-122 | Cancel and request-close hide the dialog and keep the selection |
| `VideoUpload.FeatureOneScreen.OnPickerResponse` | src/screens/FeatureOneScreen.tsx:67-78 | in every outcome the picker callback hides the dialog and keeps the selection |
| `VideoUpload.FeatureOneScreen.ModalHeading` | src/screens/FeatureOneScreen.tsx:113-115 | while the dialog shows, its heading names the selected card |

## Left out

- Stack history (push, pop, goBack) and drawer open, close and area switching
  happen inside the navigation library, whose code is not part of this model.
  The header is computed from a route name given as input. Nothing is claimed
  about pop at the root or about the drawer overlay.
- Which route a navigator shows first is the library's rule. The model only
  states that `Home` and `MainStack` are registered first.
- The default of `swipeEnabled` and the rendering of the options are the
  library's. An option the code does not set stays `None`.
- `StackHeader` says nothing about the header of a name the stack does not
  register: it returns `None` there.
- `FeatureTwoScreen.tsx` is left out: a parallel network fetch, JSON decoding
  and an asynchronous loading flag.
- `LoginScreen.tsx` and `SignUpScreen.tsx` only call `navigate`: Login goes to
  `Home` or `SignUp`, SignUp to `Home` or `Login`. Those calls are not
  modelled. They are typed against RootStackParamList, which does not declare
  `Home`.
- `Date.now()` becomes the `id` parameter of `AddItem`. `Keyboard.dismiss()`
  and every `console.log` are side effects with no state in the model.
- `launchImageLibrary` is left out, and so is the bell button's handler, which
  only logs. Only the picker callback's effect on the screen state is modelled.
- The handlers are modelled as updates applied one after another. React's
  batching of `setState` calls and handlers that close over stale state are
  not modelled.
- JavaScript strings are UTF-16 code units and the model uses Unicode
  characters. They agree on what `trim` removes, since all of those characters
  are in the Basic Multilingual Plane.
- Rendering, styles, icons, the floating-point card width, `App.tsx` and
  `metro.config.js` are left out.
- `Navigation.FindOptions` is stated without saying that it finds the first
  registration of a name. No name is registered twice, so this does not matter.
