/** The editor adapter as an abstract state machine. Each state-changing operation of the
    adapter is a function from the old state to the new one; the class `EditorAdapter.Editor`
    is proved to follow these functions, and the lemmas below state what sequences of
    operations do. */
module AdapterMachine {
  import opened ToolTypes
  import opened Languages
  import opened EditorRules

  /** The embedded editor view once it exists: its document text, the three reconfigurable
      slots (each holding the registry entry it was given, `None` for `undefined`), and the
      two attributes the adapter keeps on the view's content node. */
  datatype View = View(
    doc: string,
    themeSlot: Option<string>,
    languageSlot: Option<string>,
    readOnlySlot: bool,
    contentEditable: bool,
    readonlyClass: bool)

  /** The two pickers' initial entries. */
  datatype Pickers = Pickers(themeChoices: seq<Choice>, languageChoices: seq<Choice>)

  /** What the adapter is given at construction and never changes: the (defaulted)
      configuration, the read-only flag of the block, and the theme library's export names. */
  datatype Context = Context(config: ToolConfig, readOnly: bool, themeExports: seq<string>)

  /** The adapter's state. `view` is `None` until the first render (`this.editor` is null);
      `pending` is the partial held by the debounced `updateData`, `None` when no call is
      waiting; `dispatches` counts the change notifications sent to the host block;
      `readOnlyTimer` is the deferred read-only application scheduled by render. */
  datatype Adapter = Adapter(
    context: Context,
    data: ToolData,
    view: Option<View>,
    pickers: Option<Pickers>,
    pending: Option<ToolData>,
    dispatches: nat,
    readOnlyTimer: bool)

  /** Construction: a shallow copy of the context's data, no view, nothing pending. */
  function Construct(context: Context, data: ToolData): (a: Adapter)
    ensures a.context == context && a.data == data
    ensures a.view.None? && a.pickers.None? && a.pending.None?
    ensures a.dispatches == 0 && !a.readOnlyTimer
  {
    Adapter(context, data, None, None, None, 0, false)
  }

  /** The view that render builds from the stored data: the stored code (empty when absent),
      the resolved theme and language looked up in their registries, and the block's
      read-only flag in its slot; the content node starts editable and without `readonly`. */
  function InitialView(a: Adapter): (v: View)
    ensures v.doc == (if CodeKey in a.data then a.data[CodeKey] else "")
    ensures v.themeSlot.Some? ==> v.themeSlot.value in a.context.themeExports
    ensures Truthy(a.data, ThemeKey) && a.data[ThemeKey] in AllThemes(a.context.themeExports) ==>
              v.themeSlot == Some(a.data[ThemeKey])
    ensures v.languageSlot.Some? ==> v.languageSlot.value in AllLanguages()
    ensures Truthy(a.data, LanguageKey) && a.data[LanguageKey] in AllLanguages() ==> v.languageSlot == Some(a.data[LanguageKey])
    ensures v.readOnlySlot == a.context.readOnly && v.contentEditable && !v.readonlyClass
  {
    var ctx := a.context;
    var theme := ResolveTheme(a.data, ctx.config, ctx.themeExports);
    AllThemesMembers(ctx.themeExports, theme);
    View(GetOr(Lookup(a.data, CodeKey), ""),
         ThemeEntry(ctx.themeExports, theme),
         LanguageEntry(ResolveLanguage(a.data, ctx.config)),
         ctx.readOnly,
         true,
         false)
  }

  /** `render`: builds the view with the resolved theme and language, shows the pickers
      unless the block is read-only, and schedules the deferred read-only application.
      Rendering submits no data and sends no notification. */
  function Render(a: Adapter): (r: Adapter)
    ensures r.context == a.context && r.data == a.data && r.pending == a.pending && r.dispatches == a.dispatches
    ensures r.readOnlyTimer && r.view == Some(InitialView(a))
    ensures r.view.value.readOnlySlot == a.context.readOnly
    ensures r.view.value.doc == (if CodeKey in a.data then a.data[CodeKey] else "")
    ensures a.context.readOnly ==> r.pickers == a.pickers
    ensures !a.context.readOnly ==>
              r.pickers == Some(Pickers(ThemeChoices(a.context.themeExports, a.data), LanguageChoicesAsWritten(a.data)))
  {
    var pickers :=
      if a.context.readOnly then a.pickers
      else Some(Pickers(ThemeChoices(a.context.themeExports, a.data), LanguageChoicesAsWritten(a.data)));
    a.(view := Some(InitialView(a)), pickers := pickers, readOnlyTimer := true)
  }

  /** The debounced `updateData(partial)`: the call only replaces the waiting partial. */
  function UpdateData(a: Adapter, partial: ToolData): (r: Adapter)
    ensures r.pending == Some(partial)
    ensures r.data == a.data && r.dispatches == a.dispatches
    ensures r == a.(pending := Some(partial))
  {
    a.(pending := Some(partial))
  }

  /** The debounce window closing: the original `updateData` runs once with the last partial,
      merging it into the data and notifying the host block; with no call waiting, nothing
      happens. */
  function Flush(a: Adapter): (r: Adapter)
    ensures a.pending.None? ==> r == a
    ensures a.pending.Some? ==> r.data == Assign(a.data, a.pending.value) && r.dispatches == a.dispatches + 1
    ensures r.pending.None?
    ensures r.context == a.context && r.view == a.view && r.pickers == a.pickers && r.readOnlyTimer == a.readOnlyTimer
  {
    match a.pending
    case None => a
    case Some(partial) => a.(data := Assign(a.data, partial), pending := None, dispatches := a.dispatches + 1)
  }

  /** `setReadOnly(readOnly)`: when a view exists, reconfigures the read-only slot and sets the
      content node's `readonly` class and `contenteditable` attribute; before render it
      changes nothing. */
  function SetReadOnly(a: Adapter, readOnly: bool): (r: Adapter)
    ensures a.view.None? ==> r == a
    ensures a.view.Some? ==>
              r.view.Some? &&
              r.view.value.readOnlySlot == readOnly &&
              r.view.value.readonlyClass == readOnly &&
              r.view.value.contentEditable == !readOnly
    ensures a.view.Some? ==>
              r.view.Some? &&
              r.view.value.themeSlot == a.view.value.themeSlot &&
              r.view.value.languageSlot == a.view.value.languageSlot &&
              r.view.value.doc == a.view.value.doc
    ensures r.data == a.data && r.pending == a.pending && r.dispatches == a.dispatches
    ensures r.pickers == a.pickers && r.context == a.context && r.readOnlyTimer == a.readOnlyTimer
  {
    match a.view
    case None => a
    case Some(v) => a.(view := Some(v.(readOnlySlot := readOnly, readonlyClass := readOnly, contentEditable := !readOnly)))
  }

  /** The read-only application that render deferred to the next turn of the event loop. */
  function FireReadOnlyTimer(a: Adapter): (r: Adapter)
    ensures !a.readOnlyTimer ==> r == a
    ensures a.readOnlyTimer ==> r == SetReadOnly(a, a.context.readOnly).(readOnlyTimer := false)
  {
    if a.readOnlyTimer then SetReadOnly(a, a.context.readOnly).(readOnlyTimer := false) else a
  }

  /** `setTheme(theme)`: nothing at all when `theme` is the stored theme; otherwise the theme
      slot is reconfigured (when a view exists) and `{theme}` is submitted to the debounced
      `updateData`. No other slot and no stored key changes. */
  function SetTheme(a: Adapter, theme: string): (r: Adapter)
    ensures Lookup(a.data, ThemeKey) == Some(theme) ==> r == a
    ensures Lookup(a.data, ThemeKey) != Some(theme) ==> r.pending == Some(map[ThemeKey := theme])
    ensures Lookup(a.data, ThemeKey) != Some(theme) && a.view.Some? ==>
              r.view == Some(a.view.value.(themeSlot := ThemeEntry(a.context.themeExports, theme)))
    ensures a.view.None? ==> r.view.None?
    ensures r.data == a.data && r.dispatches == a.dispatches
    ensures r.pickers == a.pickers && r.context == a.context && r.readOnlyTimer == a.readOnlyTimer
  {
    if ThemeKey in a.data && a.data[ThemeKey] == theme then a
    else
      var view := match a.view
        case None => None
        case Some(v) => Some(v.(themeSlot := ThemeEntry(a.context.themeExports, theme)));
      UpdateData(a.(view := view), map[ThemeKey := theme])
  }

  /** `setLanguage(language)`: the same rule for the language slot and `{language}`. */
  function SetLanguage(a: Adapter, language: string): (r: Adapter)
    ensures Lookup(a.data, LanguageKey) == Some(language) ==> r == a
    ensures Lookup(a.data, LanguageKey) != Some(language) ==> r.pending == Some(map[LanguageKey := language])
    ensures Lookup(a.data, LanguageKey) != Some(language) && a.view.Some? ==>
              r.view == Some(a.view.value.(languageSlot := LanguageEntry(language)))
    ensures a.view.None? ==> r.view.None?
    ensures r.data == a.data && r.dispatches == a.dispatches
    ensures r.pickers == a.pickers && r.context == a.context && r.readOnlyTimer == a.readOnlyTimer
  {
    if LanguageKey in a.data && a.data[LanguageKey] == language then a
    else
      var view := match a.view
        case None => None
        case Some(v) => Some(v.(languageSlot := LanguageEntry(language)));
      UpdateData(a.(view := view), map[LanguageKey := language])
  }

  /** The view's update listener on a transaction that changed the document: `{code}` is
      submitted to the debounced `updateData`. There is no listener before render. */
  function EditDocument(a: Adapter, doc: string): (r: Adapter)
    ensures a.view.None? ==> r == a
    ensures a.view.Some? ==> r.view == Some(a.view.value.(doc := doc)) && r.pending == Some(map[CodeKey := doc])
    ensures r.data == a.data && r.dispatches == a.dispatches
    ensures r.pickers == a.pickers && r.context == a.context && r.readOnlyTimer == a.readOnlyTimer
  {
    match a.view
    case None => a
    case Some(v) => UpdateData(a.(view := Some(v.(doc := doc))), map[CodeKey := doc])
  }

  // ---------------------------------------------------------------------------------------
  // Debounce

  /** A burst of debounced calls with no flush between them. */
  function UpdateAll(a: Adapter, partials: seq<ToolData>): Adapter
    decreases |partials|
  {
    if partials == [] then a else UpdateAll(UpdateData(a, partials[0]), partials[1..])
  }

  /** During a burst the data is untouched and no notification is sent; only the last
      partial is waiting afterwards. */
  lemma {:induction false} UpdateAllKeepsLast(a: Adapter, partials: seq<ToolData>)
    requires partials != []
    ensures UpdateAll(a, partials) == a.(pending := Some(partials[|partials| - 1]))
    decreases |partials|
  {
    if |partials| > 1 {
      UpdateAllKeepsLast(UpdateData(a, partials[0]), partials[1..]);
    }
  }

  /** The flush after a burst merges only the last partial of the burst and notifies once. */
  lemma BurstDeliversOnlyLast(a: Adapter, partials: seq<ToolData>)
    requires partials != []
    ensures UpdateAll(a, partials).data == a.data
    ensures UpdateAll(a, partials).dispatches == a.dispatches
    ensures Flush(UpdateAll(a, partials)).data == Assign(a.data, partials[|partials| - 1])
    ensures Flush(UpdateAll(a, partials)).dispatches == a.dispatches + 1
  {
    UpdateAllKeepsLast(a, partials);
  }

  /** Earlier partials of a burst are lost: a theme change followed, within the window, by a
      code change never reaches the data. */
  lemma BurstLosesEarlierPartials(a: Adapter, theme: string, code: string)
    requires ThemeKey !in a.data
    ensures ThemeKey !in Flush(UpdateAll(a, [map[ThemeKey := theme], map[CodeKey := code]])).data
  {
    BurstDeliversOnlyLast(a, [map[ThemeKey := theme], map[CodeKey := code]]);
  }

  /** A second flush with no call in between does nothing. */
  lemma FlushIdempotent(a: Adapter)
    ensures Flush(Flush(a)) == Flush(a)
  {
  }

  // ---------------------------------------------------------------------------------------
  // Setters

  /** A theme change that gets its own window reaches the data as exactly `theme := t`,
      with one notification. */
  lemma SetThemeThenFlush(a: Adapter, theme: string)
    requires Lookup(a.data, ThemeKey) != Some(theme)
    ensures Flush(SetTheme(a, theme)).data == a.data[ThemeKey := theme]
    ensures Flush(SetTheme(a, theme)).dispatches == a.dispatches + 1
  {
  }

  /** A language change that gets its own window reaches the data as exactly
      `language := l`, with one notification. */
  lemma SetLanguageThenFlush(a: Adapter, language: string)
    requires Lookup(a.data, LanguageKey) != Some(language)
    ensures Flush(SetLanguage(a, language)).data == a.data[LanguageKey := language]
    ensures Flush(SetLanguage(a, language)).dispatches == a.dispatches + 1
  {
  }

  /** Once a theme change is flushed, choosing the same theme again is a no-op. */
  lemma SetThemeSettles(a: Adapter, theme: string)
    requires Lookup(a.data, ThemeKey) != Some(theme)
    ensures var b := Flush(SetTheme(a, theme));
            SetTheme(b, theme) == b
  {
  }

  /** Choosing the same theme twice before a flush is the same as choosing it once. */
  lemma SetThemeIdempotent(a: Adapter, theme: string)
    ensures SetTheme(SetTheme(a, theme), theme) == SetTheme(a, theme)
  {
  }

  /** Toggling read-only to the same value twice is the same as doing it once. */
  lemma SetReadOnlyIdempotent(a: Adapter, readOnly: bool)
    ensures SetReadOnly(SetReadOnly(a, readOnly), readOnly) == SetReadOnly(a, readOnly)
  {
  }

  /** Because the setters go through the same debounce, a theme choice followed within the
      window by a language choice is lost from the data, although the theme slot shows it. */
  lemma ThemeLostToLanguageInOneWindow(a: Adapter, theme: string, language: string)
    requires a.view.Some?
    requires Lookup(a.data, ThemeKey) != Some(theme)
    requires Lookup(a.data, LanguageKey) != Some(language)
    ensures var b := Flush(SetLanguage(SetTheme(a, theme), language));
            b.view.Some? && b.view.value.themeSlot == ThemeEntry(a.context.themeExports, theme) &&
            Lookup(b.data, ThemeKey) == Lookup(a.data, ThemeKey) &&
            Lookup(b.data, LanguageKey) == Some(language) &&
            b.dispatches == a.dispatches + 1
  {
  }

  /** Likewise a code edit followed within the window by a theme choice never reaches the
      data, although the view shows the edited document. */
  lemma EditLostToThemeInOneWindow(a: Adapter, doc: string, theme: string)
    requires a.view.Some?
    requires Lookup(a.data, ThemeKey) != Some(theme)
    ensures var b := Flush(SetTheme(EditDocument(a, doc), theme));
            b.view.Some? && b.view.value.doc == doc &&
            Lookup(b.data, CodeKey) == Lookup(a.data, CodeKey) &&
            Lookup(b.data, ThemeKey) == Some(theme)
  {
  }

  // ---------------------------------------------------------------------------------------
  // Render

  /** A stored theme that is offered is the one the rendered view carries. */
  lemma RenderKeepsStoredTheme(a: Adapter)
    requires Truthy(a.data, ThemeKey) && a.data[ThemeKey] in AllThemes(a.context.themeExports)
    ensures Render(a).view.value.themeSlot == Some(a.data[ThemeKey])
  {
    AllThemesMembers(a.context.themeExports, a.data[ThemeKey]);
  }

  /** The rendered theme slot is `undefined` only when the fallback theme is not exported. */
  lemma RenderThemeSlotMissing(a: Adapter)
    ensures Render(a).view.value.themeSlot.None? ==>
              FallbackTheme(a.context.config) !in a.context.themeExports
  {
    ResolvedThemeFound(a.data, a.context.config, a.context.themeExports);
  }

  /** A stored language is the one the rendered view carries, found in the registry when it
      is a registry key and `undefined` otherwise. */
  lemma RenderKeepsStoredLanguage(a: Adapter)
    requires Truthy(a.data, LanguageKey)
    ensures Render(a).view.value.languageSlot ==
              (if a.data[LanguageKey] in AllLanguages() then Some(a.data[LanguageKey]) else None)
  {
  }

  /** Constructing, rendering and letting the deferred read-only step run leaves the data as
      it came in, with nothing pending and no notification sent. */
  lemma RenderRoundTrip(context: Context, data: ToolData)
    ensures var a := FireReadOnlyTimer(Render(Construct(context, data)));
            a.data == data && a.pending.None? && a.dispatches == 0
  {
  }

  /** In a read-only block the pickers are never shown, and after the deferred step the
      content node is not editable and carries the `readonly` class. */
  lemma RenderReadOnlyBlock(context: Context, data: ToolData)
    requires context.readOnly
    ensures var a := FireReadOnlyTimer(Render(Construct(context, data)));
            a.pickers.None? && a.view.Some? && a.view.value.readOnlySlot &&
            !a.view.value.contentEditable && a.view.value.readonlyClass
  {
  }

  /** In an editable block the pickers are shown, and after the deferred step the content
      node is editable and has no `readonly` class. */
  lemma RenderEditableBlock(context: Context, data: ToolData)
    requires !context.readOnly
    ensures var a := FireReadOnlyTimer(Render(Construct(context, data)));
            a.pickers.Some? && a.view.Some? && !a.view.value.readOnlySlot &&
            a.view.value.contentEditable && !a.view.value.readonlyClass
  {
  }
}
