/** The block tool the host editor loads: it defaults the configuration, owns one editor
    adapter, contains Backspace and Tab key events, and hands the adapter's data back on save. */
module CodeToolFacade {
  import opened ToolTypes
  import opened EditorRules
  import AdapterMachine
  import EditorAdapter

  const DefaultThemeKey := "defaultTheme"
  const DefaultLanguageKey := "defaultLanguage"

  /** The defaults the supplied configuration is merged onto. */
  const ConfigDefaults: Record := map[DefaultThemeKey := "okaidia", DefaultLanguageKey := "java"]

  /** `Object.assign({defaultTheme: 'okaidia', defaultLanguage: 'java'}, config)`: a supplied
      key overrides its default and a missing one takes it. */
  function DefaultConfig(supplied: Record): (config: ToolConfig)
    ensures config.defaultTheme == (if DefaultThemeKey in supplied then supplied[DefaultThemeKey] else "okaidia")
    ensures config.defaultLanguage == (if DefaultLanguageKey in supplied then supplied[DefaultLanguageKey] else "java")
  {
    var merged := Assign(ConfigDefaults, supplied);
    ToolConfig(merged[DefaultThemeKey], merged[DefaultLanguageKey])
  }

  /** With nothing configured, a block falls back to the stored values, then to `okaidia` and
      `java`; the raw language is kept whether or not the registry knows it. */
  lemma UnconfiguredFallbacks(data: ToolData, exportNames: seq<string>)
    ensures var config := DefaultConfig(map[]);
            ResolveTheme(data, config, exportNames) ==
              (if Truthy(data, ThemeKey) && data[ThemeKey] in AllThemes(exportNames) then data[ThemeKey] else "okaidia")
    ensures ResolveLanguage(data, DefaultConfig(map[])) ==
              (if Truthy(data, LanguageKey) then data[LanguageKey] else "java")
  {
  }

  /** What a keydown handler does to the event. */
  datatype KeyEffect = KeyEffect(stopPropagation: bool, preventDefault: bool)

  /** The keydown rule of `render`: no handler in a read-only block; otherwise Backspace is
      kept from the host and Tab is kept from the host and from the browser. */
  function KeyDown(key: string, readOnly: bool): (e: KeyEffect)
    ensures e.stopPropagation <==> !readOnly && (key == "Backspace" || key == "Tab")
    ensures e.preventDefault <==> !readOnly && key == "Tab"
    ensures e.preventDefault ==> e.stopPropagation
  {
    if readOnly then KeyEffect(false, false)
    else if key == "Backspace" then KeyEffect(true, false)
    else if key == "Tab" then KeyEffect(true, true)
    else KeyEffect(false, false)
  }

  /** The toolbox entry; its icon is an imported glyph and is not modelled. */
  datatype Toolbox = Toolbox(title: string)

  /** The tool's static getters. */
  datatype StaticGetters = StaticGetters(toolbox: Toolbox, enableLineBreaks: bool, isReadOnlySupported: bool)

  /** The host keeps its hands off Enter in this block, may show it in read-only mode, and
      lists it as `Code`. */
  function Statics(): (s: StaticGetters)
    ensures s.enableLineBreaks && s.isReadOnlySupported
    ensures s.toolbox.title == "Code"
  {
    StaticGetters(Toolbox("Code"), true, true)
  }

  class CodeTool {
    /** The data the host passed in; the adapter works on its own copy. */
    const data: ToolData
    const config: ToolConfig
    const readOnly: bool
    var editor: EditorAdapter.Editor?
    /** Whether `render` has built the wrapper element. */
    var wrapperRendered: bool
    /** Whether the wrapper element carries the keydown handler. */
    var keydownHandler: bool

    ghost predicate Valid()
      reads this
    {
      editor != null
    }

    constructor (data: ToolData, supplied: Record, readOnly: bool, themeExports: seq<string>)
      ensures Valid() && fresh(editor)
      ensures this.data == data && config == DefaultConfig(supplied) && this.readOnly == readOnly
      ensures editor.State() ==
                AdapterMachine.Construct(AdapterMachine.Context(config, readOnly, themeExports), data)
      ensures !wrapperRendered && !keydownHandler
    {
      var defaulted := DefaultConfig(supplied);
      this.data := data;
      config := defaulted;
      this.readOnly := readOnly;
      wrapperRendered := false;
      keydownHandler := false;
      editor := new EditorAdapter.Editor(AdapterMachine.Context(defaulted, readOnly, themeExports), data);
    }

    /** `render()`: builds the wrapper, renders the adapter into it and, unless the block is
        read-only, installs the keydown handler. */
    method Render()
      requires Valid()
      modifies this, editor
      ensures Valid() && editor == old(editor)
      ensures editor.State() == AdapterMachine.Render(old(editor.State()))
      ensures wrapperRendered && keydownHandler == !readOnly
    {
      wrapperRendered := true;
      keydownHandler := false;
      editor.Render();
      if !readOnly {
        keydownHandler := true;
      }
    }

    /** A keydown event reaching the wrapper. */
    method OnKeyDown(key: string) returns (e: KeyEffect)
      requires wrapperRendered && keydownHandler == !readOnly
      ensures e == KeyDown(key, readOnly)
    {
      if !keydownHandler {
        return KeyEffect(false, false);
      }
      e := KeyDown(key, false);
    }

    /** `save()`: the adapter's data, or `{}` only when there is no adapter. */
    method Save() returns (saved: ToolData)
      ensures editor != null ==> saved == editor.data
      ensures editor == null ==> saved == map[]
    {
      if editor != null {
        saved := editor.GetData();
      } else {
        saved := map[];
      }
    }
  }

  /** A block that is created, rendered and saved with no edit in between gives back the data
      it was created with, whatever the configuration and read-only flag. */
  method SaveAfterRender(data: ToolData, supplied: Record, readOnly: bool, themeExports: seq<string>)
    returns (saved: ToolData)
    ensures saved == data
  {
    var tool := new CodeTool(data, supplied, readOnly, themeExports);
    tool.Render();
    tool.editor.FireReadOnlyTimer();
    saved := tool.Save();
  }
}
