/** The editor adapter as the object it is: a class whose fields the operations update in
    place. Every state-changing method is proved to move `State()` exactly as the matching
    function of `AdapterMachine` does, so the lemmas proved there hold of the object. */
module EditorAdapter {
  import opened ToolTypes
  import opened Languages
  import opened EditorRules
  import AdapterMachine

  class Editor {
    /** The context given at construction: configuration, read-only flag, theme exports. */
    const context: AdapterMachine.Context
    /** The adapter's own copy of the block data. */
    var data: ToolData
    /** The embedded editor view; `None` until render. */
    var view: Option<AdapterMachine.View>
    /** The pickers' initial entries; `None` until they are rendered. */
    var pickers: Option<AdapterMachine.Pickers>
    /** The partial held by the debounced `updateData`. */
    var pending: Option<ToolData>
    /** How many times the host block was told that it changed. */
    var dispatchCount: nat
    /** Whether the deferred read-only application is still to run. */
    var readOnlyTimer: bool

    /** The abstract value of the object. */
    function State(): AdapterMachine.Adapter
      reads this
    {
      AdapterMachine.Adapter(context, data, view, pickers, pending, dispatchCount, readOnlyTimer)
    }

    /** Copies the context's data; the debounced `updateData` starts with nothing waiting. */
    constructor (context: AdapterMachine.Context, contextData: ToolData)
      ensures State() == AdapterMachine.Construct(context, contextData)
    {
      this.context := context;
      data := contextData;
      view := None;
      pickers := None;
      pending := None;
      dispatchCount := 0;
      readOnlyTimer := false;
    }

    /** `render(container)`: the view is built with the resolved theme and language. */
    method Render()
      modifies this
      ensures State() == AdapterMachine.Render(old(State()))
    {
      var themeName := ResolveTheme(data, context.config, context.themeExports);
      var language := ResolveLanguage(data, context.config);
      view := Some(AdapterMachine.View(GetOr(Lookup(data, CodeKey), ""),
                                       ThemeEntry(context.themeExports, themeName),
                                       LanguageEntry(language),
                                       context.readOnly, true, false));
      if !context.readOnly {
        RenderedSelector();
      }
      readOnlyTimer := true;
    }

    /** `renderedSelector()`: the two pickers; theme entries are selected by the stored theme,
        and language entries, as written, by the stored theme too. */
    method RenderedSelector()
      modifies this`pickers
      ensures pickers == Some(AdapterMachine.Pickers(ThemeChoices(context.themeExports, data), LanguageChoicesAsWritten(data)))
    {
      pickers := Some(AdapterMachine.Pickers(ThemeChoices(context.themeExports, data), LanguageChoicesAsWritten(data)));
    }

    /** The deferred `setReadOnly(context.readOnly)` that render scheduled. */
    method FireReadOnlyTimer()
      modifies this
      ensures State() == AdapterMachine.FireReadOnlyTimer(old(State()))
    {
      if readOnlyTimer {
        readOnlyTimer := false;
        SetReadOnly(context.readOnly);
      }
    }

    /** The view's update listener, for a transaction that changed the document. */
    method OnDocChanged(doc: string)
      modifies this
      ensures State() == AdapterMachine.EditDocument(old(State()), doc)
    {
      if view.Some? {
        view := Some(view.value.(doc := doc));
        UpdateData(map[CodeKey := doc]);
      }
    }

    /** `updateData(partial)` as rebound by the constructor: a call to the debounced wrapper,
        which only remembers its latest argument. */
    method UpdateData(partial: ToolData)
      modifies this`pending
      ensures State() == AdapterMachine.UpdateData(old(State()), partial)
    {
      pending := Some(partial);
    }

    /** The trailing edge of the debounce: the original `updateData` runs once with the last
        argument. */
    method FlushDebounce()
      modifies this
      ensures State() == AdapterMachine.Flush(old(State()))
    {
      if pending.Some? {
        var partial := pending.value;
        pending := None;
        ApplyUpdate(partial);
      }
    }

    /** The original `updateData` body: merge into the data, then `dispatchChange()`. */
    method ApplyUpdate(partial: ToolData)
      modifies this`data, this`dispatchCount
      ensures data == Assign(old(data), partial)
      ensures dispatchCount == old(dispatchCount) + 1
    {
      data := Assign(data, partial);
      dispatchCount := dispatchCount + 1;
    }

    /** `getData()`. */
    method GetData() returns (d: ToolData)
      ensures d == data
      ensures d == State().data
    {
      d := data;
    }

    /** `setReadOnly(readOnly)`. */
    method SetReadOnly(readOnly: bool)
      modifies this`view
      ensures State() == AdapterMachine.SetReadOnly(old(State()), readOnly)
    {
      if view.Some? {
        view := Some(view.value.(readOnlySlot := readOnly));
        if readOnly {
          view := Some(view.value.(readonlyClass := true, contentEditable := false));
        } else {
          view := Some(view.value.(readonlyClass := false, contentEditable := true));
        }
      }
    }

    /** `setTheme(theme)`. */
    method SetTheme(theme: string)
      modifies this
      ensures State() == AdapterMachine.SetTheme(old(State()), theme)
    {
      if ThemeKey in data && data[ThemeKey] == theme {
        return;
      }
      if view.Some? {
        view := Some(view.value.(themeSlot := ThemeEntry(context.themeExports, theme)));
      }
      UpdateData(map[ThemeKey := theme]);
    }

    /** `setLanguage(language)`. */
    method SetLanguage(language: string)
      modifies this
      ensures State() == AdapterMachine.SetLanguage(old(State()), language)
    {
      if LanguageKey in data && data[LanguageKey] == language {
        return;
      }
      if view.Some? {
        view := Some(view.value.(languageSlot := LanguageEntry(language)));
      }
      UpdateData(map[LanguageKey := language]);
    }
  }
}
