# editorjs-code2: the editor adapter and block tool, modelled in Dafny

This project models the logic of a code-block tool for a block-based content editor. The
block embeds a code-editing view. The user can switch its theme and language and toggle it
read-only. User edits flow back into the block's data through a debounced `updateData`.

The model has six modules:

- `ToolTypes` holds the record shapes. The block's data `{code?, theme?, language?}` is a
  `map<string, string>` in which an absent key is simply not in the map. The module also has
  `Assign`, which is `Object.assign`: the keys of the source overwrite the target.
- `Languages` holds the language registry's keys, in declaration order.
- `EditorRules` holds the pure decisions:
  - the theme names offered (two filters over the theme library's export names);
  - the fallback chains for the initial theme and language;
  - each picker's initial selection.
- `AdapterMachine` is the editor adapter as an abstract state machine. There is one function
  per state change: construct, render, the debounced call, the debounce flush, `setReadOnly`,
  `setTheme`, `setLanguage`, a document edit, and the deferred read-only step. Lemmas relate
  sequences of these.
- `EditorAdapter.Editor` is the adapter as a class whose fields the methods update in place.
  Each state-changing method is proved to move `State()` exactly as the matching
  `AdapterMachine` function does. `RenderedSelector`, `ApplyUpdate` and `GetData` have no such
  function; their contracts state the fields they set or return directly.
- `CodeToolFacade` is the block tool: config defaulting, the keydown rule, `save`, the static
  getters, and a client that renders and saves.

The debounce is modelled without time. A call to the debounced `updateData` replaces the
waiting partial. A flush merges that partial into the data, sends one change notification,
and clears the slot. So every earlier partial of a burst is lost. This also holds for the
partials that `setTheme`, `setLanguage` and the document listener submit, because all three go
through the same debounced method. Two lemmas show the consequences:

- `AdapterMachine.ThemeLostToLanguageInOneWindow`: a theme choice followed, within one window,
  by a language choice never reaches the data, although the theme slot shows it.
- `AdapterMachine.EditLostToThemeInOneWindow`: a code edit followed within one window by a
  theme choice never reaches the data, although the view shows the edited text.

The theme library's export names are a parameter (`Context.themeExports`), because that
library is not part of this model. A registry lookup gives `Some(name)` when the name is
registered and `None` when the lookup yields `undefined`. The view has three reconfigurable
slots. The theme and language slots hold these lookup results; the read-only slot holds the
flag last applied.

Three behaviours of the code are easy to misread, and the model follows the code in each:

- `setTheme` and `setLanguage` do not persist at once. The constructor rebinds `updateData` to
  its debounced wrapper (src/editor/index.ts:43), and both setters call it
  (src/editor/index.ts:198, 209).
- The language chain takes the first non-empty of the stored language, the configured default
  and `java`, and never checks it against the registry (src/editor/index.ts:85).
- The theme chain checks only its first choice against the offered themes; the fallback is used
  unchecked (src/editor/index.ts:57-58).

## Model

| member | source | states |
|---|---|---|
| `ToolTypes.Assign` | src/editor/index.ts:168-171 | merging overwrites exactly the keys present in the partial, keeps every other key, and the result has the union of the keys |
| `ToolTypes.AssignIdempotent` | src/editor/index.ts:169 | merging the same partial twice equals merging it once |
| `ToolTypes.AssignEmpty` | src/editor/index.ts:169 | merging an empty partial leaves the data unchanged |
| `ToolTypes.AssignSingle` | src/editor/index.ts:198 | merging a one-key partial such as `{theme}` updates that key and no other |
| `Languages.AllLanguages` | src/editor/languages.ts:9-17 | the language list is the seven registry keys in declaration order, without duplicates, and includes the hard-coded fallback `java` |
| `Languages.LanguageEntry` | src/editor/index.ts:207 | a registry lookup finds an entry exactly for the registry keys, and `undefined` for any other name |
| `EditorRules.Filter` | src/editor/index.ts:213-215 | a filter is never longer than its input, and every element it keeps satisfies the predicate |
| `EditorRules.FilterMembers` | src/editor/index.ts:213-215 | a filter keeps exactly the elements its predicate accepts |
| `EditorRules.FilterIsSubsequence` | src/editor/index.ts:213-215 | a filter's result is an order-preserving subsequence of its input |
| `EditorRules.FilterThenFilter` | src/editor/index.ts:213-215 | two filters in a row equal one filter by the conjunction of the two predicates |
| `EditorRules.AllThemes` | src/editor/index.ts:212-216 | the theme list equals one filter of the export names by "not `...Init` and not `defaultSettings...`", and is a subsequence of the export names |
| `EditorRules.AllThemesMembers` | src/editor/index.ts:212-216 | a name is offered as a theme iff it is an export name that neither ends with `Init` nor starts with `defaultSettings` |
| `EditorRules.ThemeEntry` | src/editor/index.ts:82 | a theme lookup finds the export exactly when the name is exported; otherwise it yields `undefined` |
| `EditorRules.FallbackTheme` | src/editor/index.ts:58 | the fallback theme is the configured default when that is non-empty, else `okaidia`; it is never empty |
| `EditorRules.ResolveTheme` | src/editor/index.ts:56-59 | the chosen theme is an offered theme or the fallback; a non-empty offered stored theme is always kept; with no stored theme, an offered configured default is kept; the first choice is replaced only when it is not offered |
| `EditorRules.ThemeFallbackNotChecked` | src/editor/index.ts:57-58 | a configured default that is not exported is still used, and its lookup misses |
| `EditorRules.ResolvedThemeFound` | src/editor/index.ts:56-82 | the resolved theme's lookup can miss only when the fallback was used and the fallback is not an export |
| `EditorRules.ResolveLanguage` | src/editor/index.ts:85 | the chosen language is never empty; it is the stored language when that is non-empty, else the configured default when that is non-empty, else `java` |
| `EditorRules.ResolvedLanguageFound` | src/editor/index.ts:85 | the language lookup succeeds whenever each non-empty candidate in the chain is a registry key |
| `EditorRules.ResolvedLanguageMayMiss` | src/editor/index.ts:85 | an unknown stored language (`rust`) is used as it stands, with no membership check, and its lookup yields `undefined` |
| `EditorRules.Choices` | src/editor/index.ts:133-139 | a picker has one entry per value, in order; an entry starts selected iff the stored value under its key equals it (an absent key selects none) |
| `EditorRules.ChoicesSelectAtMostOne` | src/editor/index.ts:133-139 | when the values are distinct, at most one entry starts selected |
| `EditorRules.ThemeChoices` | src/editor/index.ts:126-140 | the theme picker lists the offered themes in order and selects the entry equal to the stored theme |
| `EditorRules.LanguageChoicesAsWritten` | src/editor/index.ts:154-160 | as written, a language entry starts selected iff it equals the stored THEME |
| `EditorRules.LanguageChoices` | src/editor/index.ts:147-161 | corrected: the language picker lists the registry keys in order and selects the entry equal to the stored language |
| `EditorRules.LanguagePickerSelection` | src/editor/index.ts:158 | for data `{theme: okaidia, language: python}`, the as-written picker selects no language, while the corrected one selects exactly `python` |
| `AdapterMachine.Construct` | src/editor/index.ts:37-48 | construction copies the context's data, has no view and no pickers, has nothing pending, and has sent no notification |
| `AdapterMachine.InitialView` | src/editor/index.ts:61-94 | the new view holds the stored code (empty when absent); its theme slot is an exported theme or `undefined`, and is the stored theme's entry when that is offered; its language slot is a registry entry or `undefined`, and is the stored language's entry when that is a key; the read-only slot holds the block's flag, and the content node starts editable without `readonly` |
| `AdapterMachine.Render` | src/editor/index.ts:50-101 | render keeps the data, the pending call and the notification count; it creates the `InitialView` view; in an editable block it shows the theme picker selected by the stored theme and the language picker as written, selected by the stored theme too; in a read-only block it shows none; it schedules the deferred read-only step |
| `AdapterMachine.UpdateData` | src/editor/index.ts:43 | a call to the debounced `updateData` only replaces the waiting partial: the data and the notification count are unchanged |
| `AdapterMachine.Flush` | src/editor/index.ts:168-171 | a flush merges the waiting partial into the data and notifies exactly once; with nothing waiting it changes nothing; afterwards nothing is waiting; the view and the pickers are untouched |
| `AdapterMachine.SetReadOnly` | src/editor/index.ts:177-188 | after render, sets the read-only slot to `r`, the `readonly` class to `r` and `contenteditable` to `!r`, leaving the theme slot, the language slot, the document and the data unchanged; before render it changes nothing |
| `AdapterMachine.FireReadOnlyTimer` | src/editor/index.ts:100 | the deferred step applies `setReadOnly(context.readOnly)` once and then is gone |
| `AdapterMachine.SetTheme` | src/editor/index.ts:190-199 | choosing the stored theme changes nothing at all; otherwise the theme slot is reconfigured (only when a view exists) and `{theme}` becomes the waiting partial; the data, the notification count, the pickers and every other slot are unchanged |
| `AdapterMachine.SetLanguage` | src/editor/index.ts:201-210 | the same rule for the language slot and `{language}` |
| `AdapterMachine.EditDocument` | src/editor/index.ts:87-91 | after render, a document change updates the view's text and makes `{code}` the waiting partial; before render there is no listener, so nothing changes |
| `AdapterMachine.UpdateAllKeepsLast` | src/editor/index.ts:43 | after a burst of debounced calls with no flush between them, only the last partial is waiting, and nothing else has changed |
| `AdapterMachine.BurstDeliversOnlyLast` | src/editor/index.ts:43 | during a burst the data and the notification count are unchanged; the flush after it merges only the burst's last partial and notifies once |
| `AdapterMachine.BurstLosesEarlierPartials` | src/editor/index.ts:89 | a theme partial followed within the window by a code partial never reaches the data |
| `AdapterMachine.FlushIdempotent` | src/editor/index.ts:168-171 | a second flush without an intervening call does nothing |
| `AdapterMachine.SetThemeThenFlush` | src/editor/index.ts:190-199 | a theme change given its own window sets exactly the `theme` key and notifies once |
| `AdapterMachine.SetLanguageThenFlush` | src/editor/index.ts:201-210 | a language change given its own window sets exactly the `language` key and notifies once |
| `AdapterMachine.SetThemeSettles` | src/editor/index.ts:190-193 | once a theme change has been flushed, choosing the same theme again is a no-op |
| `AdapterMachine.SetThemeIdempotent` | src/editor/index.ts:190-199 | choosing the same theme twice before a flush equals choosing it once |
| `AdapterMachine.SetReadOnlyIdempotent` | src/editor/index.ts:177-188 | applying the same read-only flag twice equals applying it once |
| `AdapterMachine.ThemeLostToLanguageInOneWindow` | src/editor/index.ts:190-210 | a theme choice followed within one window by a language choice leaves the stored theme unchanged, though the theme slot shows the new theme; the language is stored, with one notification |
| `AdapterMachine.EditLostToThemeInOneWindow` | src/editor/index.ts:87-91 | a code edit followed within one window by a theme choice leaves the stored code unchanged, though the view shows the edited text |
| `AdapterMachine.RenderKeepsStoredTheme` | src/editor/index.ts:56-82 | a non-empty stored theme that is offered is the theme slot's entry after render |
| `AdapterMachine.RenderThemeSlotMissing` | src/editor/index.ts:56-82 | after render the theme slot is `undefined` only when the fallback theme is not exported |
| `AdapterMachine.RenderKeepsStoredLanguage` | src/editor/index.ts:85 | a non-empty stored language always goes into the language slot: the registry entry when it is a key, `undefined` otherwise |
| `AdapterMachine.RenderRoundTrip` | src/editor/index.ts:37-101 | construct, render, and the deferred step leave the data exactly as given, with nothing pending and no notification |
| `AdapterMachine.RenderReadOnlyBlock` | src/editor/index.ts:96-100 | in a read-only block the pickers are never shown; after the deferred step the content node is not editable, carries `readonly`, and the read-only slot is set |
| `AdapterMachine.RenderEditableBlock` | src/editor/index.ts:96-100 | in an editable block the pickers are shown; after the deferred step the content node is editable and has no `readonly` class |
| `EditorAdapter.Editor.constructor` | src/editor/index.ts:37-48 | the object's state is `Construct` of the context and the data |
| `EditorAdapter.Editor.Render` | src/editor/index.ts:50-101 | the object moves as `AdapterMachine.Render` |
| `EditorAdapter.Editor.RenderedSelector` | src/editor/index.ts:103-166 | sets the pickers to the theme picker selected by the stored theme and the language picker as written, whose selection compares with the stored theme |
| `EditorAdapter.Editor.FireReadOnlyTimer` | src/editor/index.ts:100 | the object moves as `AdapterMachine.FireReadOnlyTimer` |
| `EditorAdapter.Editor.OnDocChanged` | src/editor/index.ts:87-91 | the object moves as `AdapterMachine.EditDocument` |
| `EditorAdapter.Editor.UpdateData` | src/editor/index.ts:43 | the object moves as `AdapterMachine.UpdateData` |
| `EditorAdapter.Editor.FlushDebounce` | src/editor/index.ts:43 | the object moves as `AdapterMachine.Flush` |
| `EditorAdapter.Editor.ApplyUpdate` | src/editor/index.ts:168-171 | the data becomes the merge of old data and partial; the notification count grows by one |
| `EditorAdapter.Editor.GetData` | src/editor/index.ts:173-175 | returns the object's current data |
| `EditorAdapter.Editor.SetReadOnly` | src/editor/index.ts:177-188 | the object moves as `AdapterMachine.SetReadOnly` |
| `EditorAdapter.Editor.SetTheme` | src/editor/index.ts:190-199 | the object moves as `AdapterMachine.SetTheme` |
| `EditorAdapter.Editor.SetLanguage` | src/editor/index.ts:201-210 | the object moves as `AdapterMachine.SetLanguage` |
| `CodeToolFacade.DefaultConfig` | src/index.ts:70-73 | a supplied `defaultTheme` or `defaultLanguage` overrides its default; a missing one becomes `okaidia` or `java` |
| `CodeToolFacade.UnconfiguredFallbacks` | src/index.ts:70-73 | with nothing configured, the theme is the offered stored theme else `okaidia`, and the language is the stored one (unchecked) else `java` |
| `CodeToolFacade.KeyDown` | src/index.ts:114-127 | stopPropagation iff the block is editable and the key is Backspace or Tab; preventDefault iff editable and the key is Tab; so Backspace gets stopPropagation only, and in a read-only block no key gets any action |
| `CodeToolFacade.Statics` | src/index.ts:210-246 | `enableLineBreaks` and `isReadOnlySupported` are true, and the toolbox title is `Code` |
| `CodeToolFacade.CodeTool.constructor` | src/index.ts:67-93 | the config is defaulted, and a fresh adapter is built on the defaulted config, the read-only flag, and the host's data |
| `CodeToolFacade.CodeTool.Render` | src/index.ts:108-129 | the adapter is rendered, and the keydown handler is installed iff the block is not read-only |
| `CodeToolFacade.CodeTool.OnKeyDown` | src/index.ts:116-126 | a keydown on the rendered wrapper has exactly the effect `KeyDown` gives for the block's read-only flag |
| `CodeToolFacade.CodeTool.Save` | src/index.ts:138-140 | save returns the adapter's current data, or `{}` only when there is no adapter |
| `CodeToolFacade.SaveAfterRender` | src/index.ts:138-140 | a block created, rendered and saved with no edit in between returns exactly the data it was created with |

## Findings

| source | as written | input that shows it | evidently intended | confidence | as-written member | corrected member |
|---|---|---|---|---|---|---|
| src/editor/index.ts:158 | the language picker marks an entry selected when it equals `this.data.theme` | data `{theme: "okaidia", language: "python"}`: no language entry is selected | compare with `this.data.language`, as the theme picker does with `this.data.theme` at line 137 | high; not executed | `EditorRules.LanguageChoicesAsWritten` (shown by `EditorRules.LanguagePickerSelection`) | `EditorRules.LanguageChoices` |

## Left out

- The code-editing library is left out: view construction, its extension list, `dispatch`, and
  the compartment mechanism. Each slot is modelled only as the registry entry it holds. The
  view's initial `contenteditable` is taken to be "true", the library's default for an editable
  view.
- The picker library's construction, the DOM elements and the CSS classes are left out. Only
  each picker's initial entries are modelled. The pickers' change listeners (src/editor/index.ts:141-144, 162-165)
  only call `setTheme`/`setLanguage`, so those methods model them.
- `AdapterMachine.InitialView`, `AdapterMachine.RenderKeepsStoredLanguage`,
  `AdapterMachine.RenderThemeSlotMissing`, `EditorRules.ResolvedLanguageMayMiss`: a `None` slot
  stands for `undefined` handed to the code-editing library as an extension
  (src/editor/index.ts:82, 85, 196, 207). What the library then does, possibly throwing out of
  `render`, `setTheme` or `setLanguage`, is not modelled; the model carries on with the slot empty.
- `copyCode` is left out: the asynchronous clipboard API and the notifier are I/O.
- The paste listener is left out. It only suppresses a DOM event.
- Real time is left out: the 300 ms window and the `setTimeout` deferral. They are explicit
  steps (`FlushDebounce`, `FireReadOnlyTimer`) that the environment takes. The model does not
  cancel a pending flush on teardown, because the code has no teardown.
- An edit is modelled by the document text it produces. Every listener call is treated as one
  with `docChanged` true.
- A second render replaces the view. The first view's DOM, which stays in its container, is not
  modelled.
- Property values that are not strings are left out. So is a key present with value `undefined`,
  which `Object.assign` would copy. Data and config values are strings here.
- Lookups that reach the prototype chain of the language mapping object (such as `toString`)
  are left out. A lookup hits only the seven declared keys.
- Object identity is left out. `save` returns the adapter's data object by reference in the
  code; in the model it is a value. The host's data object and the adapter's shallow copy are
  distinct values, as they are distinct objects in the code.
- The theme library's export names are an input, in whatever order they are given. The library
  itself is not part of this model.
- The toolbox icon is an imported glyph and is not modelled.
- vite.config.js (build configuration) is not part of this model. Neither are the host
  editor's APIs beyond `dispatchChange`, which is counted.
