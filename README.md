# Indian-law query form: a Dafny model

This project models the logic of a single-page form for legal questions. The
user ticks Indian legal codes, picks an audience and a focus, and types a
query. The form composes a prompt for a generative-language API and shows
the answer, an error, a spinner or a placeholder.

Modules, one per source file or concern:

- `Types` (types.ts): the `Law` enumeration with its run-time string ids, and the `QueryState` record.
- `Constants` (constants.ts): the law table and the audience, focus, output-language and locale tables.
  It also models `find` over the law table.
- `Text`: the `join('\n')` that builds the law list, plus two reference definitions that the composer's
  properties are stated against: splitting a text at its newlines, and substring containment. The
  modelled code calls neither of these two.
- `QueryUpdates` (App.tsx): the initial form state, the single-field update of `handleStateChange`
  and the checkbox toggle of `handleLawChange`.
- `Composer` (App.tsx): the submit guard, the bulleted law list, the focus clause and the prompt.
- `Preview` (components/PromptPreview.tsx): the choice `renderContent` makes.
- `Controller` (App.tsx): the `App` component as a class. Its fields are the form state and
  `response`, `isLoading` and `error`. Its methods are the handlers; `handleSubmit` is split into
  its synchronous start (`BeginSubmit`) and its completion (`Settle`), and `HandleSubmit` runs both.

The generative API call is not modelled as I/O. Its result is a parameter of `HandleSubmit` and
`Settle`: either the returned text or a failure message. `outputLanguage` is declared in types.ts
but left out of the initial state (App.tsx:11-16), so at run time it starts as `undefined`. The
model therefore gives it type `Option<string>` and starts it as `None`. Nothing reads it.

## Model

| member | source | states |
|---|---|---|
| `Types.LawId` | types.ts:1-11 | the string id each enumeration member carries at run time (its contract is `LawIdInjective` and `LawIdSingleLine`) |
| `Types.LawIdInjective` | types.ts:1-11 | two laws have the same string id exactly when they are the same law |
| `Types.LawIdSingleLine` | types.ts:2-10 | no id contains a newline |
| `Constants.FindLawOption` | App.tsx:46 | `find` returns nothing exactly when no row has the id; otherwise it returns a row with that id and no earlier row has it |
| `Constants.Label` | constants.ts:4-12 | each law's short checkbox label, as in the table's `name` column (stated by `FullNames` for NI) |
| `Constants.Title` | constants.ts:4-12 | each law's full title, as in the table's `fullName` column (stated by `FullNames`, `LongFullNames` and `TitleSingleLine`) |
| `Constants.Row` | constants.ts:4-12 | one table row: id, label and title of a law (the lookup's result in `LawLookupSucceeds`) |
| `Constants.LawsOptionsOnePerLaw` | constants.ts:3-13 | the table has nine rows, every law has a row, and no two rows share an id |
| `Constants.FindFirst` | App.tsx:46 | `find` returns the first row whose id matches |
| `Constants.LawLookupSucceeds` | constants.ts:3-13 | looking up any law in the table succeeds and yields that law's own row with a non-empty title |
| `Constants.TitleSingleLine` | constants.ts:4-12 | no full title contains a newline |
| `Constants.FullNames` | constants.ts:4-10 | the lookup yields, word for word, the titles of CPC, BNS, BNSS, BSA, NI, HMA and MVA; NI is labelled "NI Act" |
| `Constants.LongFullNames` | constants.ts:11-12 | the lookup yields, word for word, the titles of the Domestic Violence Act, 2005 and of the Senior Citizens Act, 2007 |
| `Constants.DefaultFocusIsGeneral` | constants.ts:21-26 | four focus options; the first is "General Explanation" and no other is |
| `Constants.AudienceTiers` | constants.ts:15-19 | three audience options, the first being the layperson one |
| `Constants.LanguageCodesCoverOptions` | constants.ts:28-36 | the locale map's keys are exactly the output languages; English maps to en-US and Telugu to te-IN |
| `Text.JoinLines` | App.tsx:48 | `join('\n')`; its contract is the round trip `SplitJoin` and the containment `JoinLinesContainsEach` |
| `Text.JoinLinesContainsEach` | App.tsx:48 | every joined line occurs in the joined text |
| `Text.SplitJoin` | App.tsx:48 | splitting on newlines undoes joining newline-free lines |
| `QueryUpdates.InitialQueryState` | App.tsx:11-16 | the form starts with CPC ticked, the layperson audience, an empty query, the general focus and no output language |
| `QueryUpdates.SetField` | App.tsx:21-23 | the updated field holds the new value and every other field keeps its old value |
| `QueryUpdates.RemoveAll` | App.tsx:28 | the filter drops the law and keeps every other law that was present; it shrinks the list when the law was in it |
| `QueryUpdates.RemoveAllAppend` | App.tsx:28 | the filter distributes over concatenation, so the kept laws stay in their original order |
| `QueryUpdates.RemoveAllAbsent` | App.tsx:28 | filtering out an absent law leaves the list unchanged |
| `QueryUpdates.ToggleLaw` | App.tsx:27-29 | the toggled law's membership flips, other laws' membership is unchanged, a present law is removed everywhere (the list is `RemoveAll` of it, and shorter), and an absent law is appended once at the end |
| `QueryUpdates.ToggleLawIn` | App.tsx:25-32 | the law change is the field update of `selectedLaws` with the toggled list; only that field changes |
| `QueryUpdates.ToggleNoDuplicates` | App.tsx:27-29 | a list without repeats has none after a toggle |
| `QueryUpdates.ToggleTwiceAbsent` | App.tsx:27-29 | ticking then unticking an unselected law restores the exact list |
| `QueryUpdates.ToggleTwicePresent` | App.tsx:27-29 | unticking then ticking a selected law keeps the same laws but moves that law to the end |
| `Composer.Validate` | App.tsx:36-39 | submission is refused, with the fixed message, exactly when the query is empty or no law is selected; a whitespace query passes |
| `Composer.LawLine` | App.tsx:46-47 | one bullet, with the `?.` and `||` fallbacks for a law missing from the table (their never firing is `LawLineNamesTitle`) |
| `Composer.LawLines` | App.tsx:45-47 | the mapped bullets: one per selected law |
| `Composer.LawDetails` | App.tsx:45-48 | the bullets joined by newlines (one line per law is `LawDetailsOneLinePerLaw`) |
| `Composer.LawLineNamesTitle` | App.tsx:45-47 | each bullet is `- <full title> (<id>)` and holds no newline; the fallbacks never fire |
| `Composer.LawDetailsOneLinePerLaw` | App.tsx:45-48 | the law list splits into exactly one line per selected law, in selection order, each naming that law's title and id |
| `Composer.FocusInstruction` | App.tsx:50-52 | the focus clause is empty exactly for "General Explanation"; otherwise it starts a new line and contains the focus verbatim |
| `Composer.ComposePrompt` | App.tsx:54-70 | the whole prompt: the fixed paragraphs of the template with audience, law list, focus clause and quoted query spliced in (what it contains is `PromptSplicesState`) |
| `Composer.PromptSplicesState` | App.tsx:54-70 | the prompt contains the audience, the law list, the focus clause and the query wrapped in double quotes |
| `Composer.SpliceNine` | App.tsx:54-70 | every spliced piece of the template is contained in the whole text |
| `Composer.PromptListsEachLaw` | App.tsx:45-64 | the prompt contains the bullet line of every selected law |
| `Composer.PromptIgnoresOutputLanguage` | App.tsx:54-70 | the prompt does not depend on the output language |
| `Preview.RenderContent` | components/PromptPreview.tsx:33-48 | spinner exactly when loading; else the error when it is a non-empty string; else the response when non-empty; else the placeholder; the text shown is the input verbatim |
| `Controller.App.Shown` | App.tsx:101-105 | the panel the component shows: `renderContent` of its response, loading flag and error (its branches are `RenderContent`'s contract) |
| `Controller.InitialStateDefaults` | App.tsx:11-16 | the form starts with CPC ticked, the layperson audience, no focus clause, an undefined output language, and a state the guard refuses |
| `Controller.App.constructor` | App.tsx:11-19 | the initial form state, an empty response, not loading, no error |
| `Controller.App.HandleStateChange` | App.tsx:21-23 | the form state becomes the single-field update; the result fields are untouched |
| `Controller.App.HandleLawChange` | App.tsx:25-32 | the form state becomes the toggled state; the result fields are untouched |
| `Controller.App.BeginSubmit` | App.tsx:34-70 | a refused submit only sets the validation error and sends nothing; an accepted one sets loading, clears response and error, shows the spinner and sends the composed prompt |
| `Controller.App.Settle` | App.tsx:72-84 | success stores the returned text, failure stores the prefixed message as the error, and loading ends either way |
| `Controller.App.HandleSubmit` | App.tsx:34-85 | a whole submission: the prompt is sent exactly when the guard passes, and the final fields and panel are the failure message, the returned text, or the placeholder for empty text |

## Left out

- The generative API call, the API key, `async`/`await` and `console.error` (App.tsx:72-81): the call's outcome is a parameter (`ApiOutcome`), not I/O.
- `Controller.App.Settle`: `result.text` and `e.message` are taken to be strings; an `undefined` text or message is not modelled.
- Interleaving: the model does not capture other handlers running while the request is in flight, or the stale `queryState` that the handler's closure captures.
- The exact wording and indentation of the prompt's fixed paragraphs are copied as constants, but only how the state is spliced into them is proved.
- JSX, styling, React hooks, and the presentation components (Header, SelectInput, Checkbox, TextAreaInput, FormSection, PromptForm): no logic of their own.
- The markdown renderer, speech recognition and synthesis, the clipboard action and an output-language directive in the prompt: none of them exists in App.tsx, constants.ts, types.ts or the components. The response is shown as raw text (components/PromptPreview.tsx:40-45).
- `OUTPUT_LANGUAGE_OPTIONS` and `LANGUAGE_CODE_MAP` are modelled as tables, but nothing in the modelled code uses them.
