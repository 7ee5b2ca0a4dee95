# Character-chat page controller, modelled in Dafny

This project models the state controller of a single-page "character chat" web app. The page keeps five module-level variables:

- the list of chat characters;
- the API configuration, with one settings record per provider;
- the active character's id;
- a batch-delete mode flag;
- a history of screen names, at most ten long.

Event handlers update these variables in place.
The model is one class, `App.ChatApp`, whose fields are those variables plus the browser storage they are written to. Its methods are the handlers. Pure modules next to it define the operations the handlers use and prove their properties:

- `Navigation`: the screen-history stack (`showScreen` / `goBack`) and the map from screen names to screen elements.
- `Characters`: first-run seeding, the "New Character" placeholder and batch deletion by id.
- `ApiSettings`: the provider-keyed configuration, its default, loading, and the settings-form submit.
- `JsString`: ECMAScript `String.prototype.trim`, which the form applies to every field it saves.
- `Wrappers`: `Option`.

Browser I/O becomes data:
- `localStorage` and `sessionStorage` are `Option` fields of the class. Storing and reading back gives the same value, so JSON encoding is not modelled.
- `Date.now()` is the parameter `now`.
- The answer to `confirm` is a boolean parameter.
- Form inputs and the checked ids are parameters.
- `alert` only shows a message, so it is not modelled.

The screen on view is the id of the revealed screen element, or `None` when every screen is hidden.

The model follows the code as written in these places:
- Loading the API configuration replaces it with the stored one, or with a copy of the default. It does not merge the stored configuration over the default (`script.js:71-80`).
- `showScreen` pushes a non-empty name onto the history even when no screen element is mapped to it. In that case only the screen on view disappears (`script.js:140-154`).
- No model-listing fetch exists in `script.js`.

In one place the model departs from the code on purpose:
- `App.ChatApp.GoBack` reveals the screen element that `screenMap` gives for the new top of the history, as `showScreen` does. The lookup as written at `script.js:169` is modelled separately as `Navigation.BackElementAsWritten`. It misses six of the ten screens; see "## Findings".

## Model

| member | source | states |
|---|---|---|
| `JsString.TrimStart` | script.js:330-332 | the start-trimmed field is no longer than the field; `TrimStartSpec` gives its full characterisation |
| `JsString.TrimEnd` | script.js:330-332 | the end-trimmed field is no longer than the field; `TrimEndSpec` gives its full characterisation |
| `JsString.Trim` | script.js:330-332 | the trimmed field is no longer than the field; `TrimSpec`, `TrimEmptyIffBlank` and `TrimUnique` characterise it |
| `JsString.TrimStartSpec` | script.js:330-332 | trimming the start leaves the suffix after all leading whitespace, and that suffix does not start with whitespace |
| `JsString.TrimEndSpec` | script.js:330-332 | trimming the end leaves the prefix before all trailing whitespace, and that prefix does not end with whitespace |
| `JsString.TrimSpec` | script.js:330-332 | a trimmed field is no longer than the field and neither starts nor ends with whitespace |
| `JsString.TrimEmptyIffBlank` | script.js:330-332 | a field trims to the empty string exactly when it is all whitespace |
| `JsString.TrimUnique` | script.js:330-332 | trim returns exactly the slice of the field that has only whitespace around it and no whitespace at its ends |
| `JsString.TrimIdempotent` | script.js:330-332 | trimming a trimmed field changes nothing |
| `Navigation.ScreenElement` | script.js:148-154 | a screen element is revealed exactly for the ten names of `screenMap`, and it is one of the page's screen elements |
| `Navigation.Current` | script.js:140 | the current screen is None exactly for an empty history, and otherwise the last entry |
| `Navigation.PushHistory` | script.js:140-144 | afterwards the name is on top; an unchanged history when it already was; otherwise the name is appended, and at capacity exactly the oldest entry is dropped with the rest kept in order |
| `Navigation.PopHistory` | script.js:164-166 | with at most one entry nothing changes; otherwise exactly the last entry is removed and nothing is pushed; a valid history stays valid |
| `Navigation.PushHistoryKeepsValid` | script.js:140-144 | showing a non-empty name keeps the history within 10 entries, free of empty names and free of equal adjacent entries |
| `Navigation.BackUndoesShow` | script.js:140-166 | going back right after showing a new screen restores the previous history (minus the evicted oldest entry at capacity), and the top is the screen shown before |
| `Navigation.ReplayKeepsValid` | script.js:135-174 | every sequence of showScreen and goBack calls from a valid history leaves a valid history |
| `Navigation.BackElementAsWritten` | script.js:169-172 | as written, goBack reveals an element exactly when the name followed by "-screen" is the id of one of the page's screen elements, and then it is that element |
| `Navigation.BackAsWrittenFindsOnlyOneWordScreens` | script.js:169-172 | of the ten screen names, the as-written lookup agrees with `screenMap` exactly for "home", "chat", "prompts" and "space" |
| `Navigation.BackAsWrittenHidesDetailScreen` | script.js:163-172 | after home, characterDetail, chat and back, the history's top is "characterDetail", but the as-written lookup reveals nothing where showScreen revealed "character-detail-screen" |
| `Characters.DefaultCharacter` | script.js:65 | the seeded character has the given id, the name "Helpful Assistant", no avatar and an empty history |
| `Characters.NewCharacter` | script.js:300 | the placeholder has the given id, the name "New Character", empty subtitle, setting and avatar, and an empty history |
| `Characters.LoadedCharacters` | script.js:63-66 | a stored list is used unchanged, the empty list included; with nothing stored there is exactly one character, "Helpful Assistant", with the given id and an empty history |
| `Characters.WithoutIds` | script.js:309 | the remaining list is no longer than the list; `WithoutIdsCounts` and `WithoutIdsSubsequence` characterise it |
| `Characters.WithoutIdsCounts` | script.js:309 | the remaining list holds no character whose id is selected and keeps every other character as many times as it occurred |
| `Characters.WithoutIdsSubsequence` | script.js:309 | the remaining characters are a subsequence of the list, so they keep their original order |
| `Characters.WithoutIdsAppend` | script.js:309 | deleting from a concatenation deletes from each part |
| `Characters.WithoutIdsNoMatch` | script.js:309 | a selection that matches no character's id leaves the list unchanged |
| `Characters.WithoutIdsIdempotent` | script.js:309 | deleting the same selection twice removes nothing more |
| `Characters.AddThenDeleteRestores` | script.js:299-309 | adding a character whose id is new and then deleting that id restores the list |
| `ApiSettings.DefaultApiConfigIsComplete` | config.js:7-31 | the default selects "openai", holds settings for "openai" only, with its base URL, empty key, model, 2048 max tokens and streaming on, so the form can be submitted on it |
| `ApiSettings.LoadedApiConfig` | script.js:71-80 | a stored configuration replaces the current one wholesale; with nothing stored it is the default: provider "openai", only "openai" settings, empty key |
| `ApiSettings.SubmitSettings` | script.js:327-332 | it succeeds exactly when the provider in use has settings; then only that provider's baseUrl, apiKey and model change, to the trimmed inputs; `provider`, the set of providers, every other provider and the remaining fields are unchanged |
| `ApiSettings.ResubmitIsNoOp` | script.js:327-332 | submitting again the values just saved changes nothing |
| `ApiSettings.LastSubmitWins` | script.js:327-332 | two submits in a row leave the same configuration as the second one alone |
| `App.ChatApp.constructor` | script.js:55-59 | the initial state: no characters, an empty configuration, no active id, batch mode off, empty history |
| `App.ChatApp.SaveCharacters` | script.js:62 | the stored list becomes the current list |
| `App.ChatApp.LoadCharacters` | script.js:63-68 | the list is the stored one or the seeded one; afterwards it is in storage either way; the session id becomes active unless it is 0 |
| `App.ChatApp.LoadApiConfig` | script.js:71-80 | the configuration becomes the stored one, or the default |
| `App.ChatApp.SaveApiConfig` | script.js:82-85 | the stored configuration becomes the current one |
| `App.ChatApp.EnterBatchDeleteMode` | script.js:177 | batch mode is on, nothing else changes |
| `App.ChatApp.ExitBatchDeleteMode` | script.js:178 | batch mode is off, nothing else changes |
| `App.ChatApp.ShowScreen` | script.js:135-161 | an empty name changes nothing; otherwise batch mode stays on only for "home", the history is pushed, the mapped screen is on view, and the list and configuration are untouched |
| `App.ChatApp.GoBack` | script.js:163-174 | the history is popped without a push; with more than one entry the screen mapped to the new top is on view, otherwise nothing changes; batch mode is untouched |
| `App.ChatApp.AddCharacter` | script.js:299-302 | exactly one "New Character" with the given id is appended; earlier entries are unchanged; the list is stored; the new id is active; the editor is shown and batch mode is off |
| `App.ChatApp.DeleteSelected` | script.js:304-312 | with no id selected or a declined confirmation nothing changes; otherwise exactly the selected ids are removed in order, the list is stored and batch mode is off |
| `App.ChatApp.SubmitApiSettings` | script.js:324-339 | with settings for the provider in use: the configuration is the submitted one, it is stored, and the history is popped, the screen on view staying as it was when there was at most one entry; otherwise nothing changes |
| `App.ChatApp.SelectCharacter` | script.js:119-127 | outside batch mode a card click makes the character active for the page and the session and opens its details; in batch mode nothing happens |
| `App.ChatApp.MenuAction` | script.js:293-297 | batch mode is on afterwards exactly when it was on or the action is "batch-delete" |
| `App.ChatApp.PanelClick` | script.js:273-289 | a target screen is shown; otherwise "back" goes back, changing nothing on view when the history has at most one entry; anything else changes no state |
| `App.ChatApp.InitialSetup` | script.js:342-349 | characters and configuration are loaded, the session's active id is taken unless it is 0, and the start screen, or "home" when none is given, is shown, with batch mode left on only for "home"; storage of the configuration and the session is untouched |
| `App.BackFromChatShowsDetail` | script.js:163-174 | after home, characterDetail, chat and back, the history is [home, characterDetail] and the detail screen is on view |
| `App.FirstRun` | script.js:342-349 | a first visit yields one stored "Helpful Assistant" with an empty history and shows the home screen |

The other handlers call modelled methods directly:
- the back buttons call `GoBack`;
- the cancel button calls `ExitBatchDeleteMode`;
- "go to chat" calls `ShowScreen("chat")`;
- "go to edit" calls `ShowScreen("characterEdit")`;
- the edit form calls `ShowScreen("characterDetail")`.

## Left out

- Rendering (`renderCharacterList`, `renderApiSettingsForm`) builds HTML and changes no state. The click handler that the card renderer attaches is modelled as `SelectCharacter`.
- The draggable floating button. It is pointer-event handling over floating-point pixel geometry.
- JSON encoding of storage, `alert`, `confirm`, `Date.now`, `URLSearchParams` and the DOM. These are browser I/O and become fields and parameters.
- Parsing of the session id. The model stores it as a number and keeps only the rule that 0 counts as absent. A value that parses to NaN is not represented.
- Screen names inherited from `Object.prototype`, such as "constructor". `screenMap` finds them and then throws. `ScreenElement` treats them as unmapped names.
- The body of the character-edit form submission is elided in the source. Only its navigation to the details screen is modelled, through `ShowScreen`.
- A `provider` value that names a field of the configuration that is not an object, such as "provider" itself. In the source, assigning to it is silently ignored. In the model, providers live in their own map.
- ApiSettings.SubmitSettings: the floating-point `temperature` setting is not modelled, so the contract does not say that temperature is kept.
- Failures of storage writes, such as a full quota. The source does not handle them.
- The model-listing fetch and the merging of a stored configuration over the default. Neither exists in `script.js`.

## Findings

| source | as written | input that shows it | evidently intended | confidence | as-written member | corrected member |
|---|---|---|---|---|---|---|
| script.js:169 | goBack looks up the element `${previousScreen}-screen`. History entries are camelCase screen names, but the screen elements have kebab-case ids (script.js:12-22). So going back to characterDetail, characterEdit, myDashboard, apiSettings, profileSettings or backgroundSettings finds no element, and every screen stays hidden. | showScreen("home"), showScreen("characterDetail"), showScreen("chat"), goBack() | reveal the element `screenMap` gives for the previous name, as showScreen does | high that the lookup misses, given the ids at script.js:12-22; not executed | `Navigation.BackAsWrittenFindsOnlyOneWordScreens` | `App.ChatApp.GoBack` |
