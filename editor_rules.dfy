/** The pure decisions of the editor adapter: which theme names are offered, how the initial
    theme and language are chosen, and which picker entry starts selected. */
module EditorRules {
  import opened ToolTypes
  import opened Languages

  /** Last-resort theme when neither the data nor the configuration names one. */
  const DefaultTheme := "okaidia"
  /** Last-resort language when neither the data nor the configuration names one. */
  const DefaultLanguage := "java"

  predicate StartsWith(s: string, prefix: string)
  {
    |prefix| <= |s| && s[..|prefix|] == prefix
  }

  predicate EndsWith(s: string, suffix: string)
  {
    |suffix| <= |s| && s[|s| - |suffix|..] == suffix
  }

  /** `Array.prototype.filter` on a list of names. */
  function Filter(s: seq<string>, keep: string -> bool): (r: seq<string>)
    ensures |r| <= |s|
    ensures forall i :: 0 <= i < |r| ==> keep(r[i])
  {
    if s == [] then [] else (if keep(s[0]) then [s[0]] else []) + Filter(s[1..], keep)
  }

  /** `a` is obtained from `b` by deleting elements, keeping the order of the rest. */
  predicate IsSubsequence(a: seq<string>, b: seq<string>)
    decreases |b|
  {
    a == [] || (b != [] && ((a[0] == b[0] && IsSubsequence(a[1..], b[1..])) || IsSubsequence(a, b[1..])))
  }

  /** A filter keeps exactly the elements the predicate accepts. */
  lemma {:induction false} FilterMembers(s: seq<string>, keep: string -> bool, x: string)
    ensures x in Filter(s, keep) <==> x in s && keep(x)
  {
    if s != [] {
      FilterMembers(s[1..], keep, x);
      assert s == [s[0]] + s[1..];
    }
  }

  /** A filter keeps the order of what it keeps. */
  lemma {:induction false} FilterIsSubsequence(s: seq<string>, keep: string -> bool)
    ensures IsSubsequence(Filter(s, keep), s)
  {
    if s != [] {
      FilterIsSubsequence(s[1..], keep);
      var r := Filter(s, keep);
      if keep(s[0]) {
        assert r[0] == s[0] && r[1..] == Filter(s[1..], keep);
      } else {
        assert r == Filter(s[1..], keep);
      }
    }
  }

  /** Two filters in a row are one filter by the conjunction of their predicates. */
  lemma {:induction false} FilterThenFilter(s: seq<string>, p: string -> bool, q: string -> bool, both: string -> bool)
    requires forall x :: both(x) == (p(x) && q(x))
    ensures Filter(Filter(s, p), q) == Filter(s, both)
  {
    if s != [] {
      FilterThenFilter(s[1..], p, q, both);
      var once := Filter(s, p);
      if p(s[0]) {
        assert once[0] == s[0] && once[1..] == Filter(s[1..], p);
      } else {
        assert once == Filter(s[1..], p);
      }
    }
  }

  /** The first filter of `getAllThemes`: drop the `...Init` theme factories. */
  predicate NotThemeFactory(name: string)
  {
    !EndsWith(name, "Init")
  }

  /** The second filter of `getAllThemes`: drop the `defaultSettings...` objects. */
  predicate NotThemeSettings(name: string)
  {
    !StartsWith(name, "defaultSettings")
  }

  /** A theme-library export that is offered as a theme. */
  predicate IsListedTheme(name: string)
  {
    NotThemeFactory(name) && NotThemeSettings(name)
  }

  /** `getAllThemes()` over the theme library's export names, as written: two filters in a row.
      The result is one filter by `IsListedTheme` and keeps the exports' order. */
  function AllThemes(exportNames: seq<string>): (themes: seq<string>)
    ensures themes == Filter(exportNames, IsListedTheme)
    ensures IsSubsequence(themes, exportNames)
  {
    FilterThenFilter(exportNames, NotThemeFactory, NotThemeSettings, IsListedTheme);
    FilterIsSubsequence(exportNames, IsListedTheme);
    Filter(Filter(exportNames, NotThemeFactory), NotThemeSettings)
  }

  /** A name is offered as a theme exactly when it is an export that neither ends with
      `Init` nor starts with `defaultSettings`. */
  lemma AllThemesMembers(exportNames: seq<string>, x: string)
    ensures x in AllThemes(exportNames) <==>
            x in exportNames && !EndsWith(x, "Init") && !StartsWith(x, "defaultSettings")
  {
    FilterMembers(exportNames, IsListedTheme, x);
  }

  /** `themes[name]` on the theme library's namespace: the export itself, or `undefined`. */
  function ThemeEntry(exportNames: seq<string>, name: string): (e: Option<string>)
    ensures e.Some? <==> name in exportNames
    ensures e.Some? ==> e.value == name
  {
    if name in exportNames then Some(name) else None
  }

  /** The theme to use when the first choice is not an offered theme. */
  function FallbackTheme(config: ToolConfig): (name: string)
    ensures name != ""
    ensures config.defaultTheme != "" ==> name == config.defaultTheme
  {
    if config.defaultTheme != "" then config.defaultTheme else DefaultTheme
  }

  /** The first choice of theme: `data.theme || config.defaultTheme`. */
  function ThemeCandidate(data: ToolData, config: ToolConfig): string
  {
    if Truthy(data, ThemeKey) then data[ThemeKey] else config.defaultTheme
  }

  /** The theme chosen at render time. The first choice is kept when it is an offered theme;
      otherwise the fallback is taken without checking whether it is offered. */
  function ResolveTheme(data: ToolData, config: ToolConfig, exportNames: seq<string>): (name: string)
    ensures name in AllThemes(exportNames) || name == FallbackTheme(config)
    ensures Truthy(data, ThemeKey) && data[ThemeKey] in AllThemes(exportNames) ==> name == data[ThemeKey]
    ensures !Truthy(data, ThemeKey) && config.defaultTheme in AllThemes(exportNames) ==> name == config.defaultTheme
    ensures name != ThemeCandidate(data, config) ==>
              ThemeCandidate(data, config) !in AllThemes(exportNames) && name == FallbackTheme(config)
  {
    var candidate := ThemeCandidate(data, config);
    if candidate in AllThemes(exportNames) then candidate else FallbackTheme(config)
  }

  /** The fallback is not checked: a configured default that the library does not export
      is used as it stands, and its lookup misses. */
  lemma ThemeFallbackNotChecked()
    ensures var config := ToolConfig("solarizedDusk", "java");
            var name := ResolveTheme(map[ThemeKey := "nope"], config, ["dracula", "okaidia"]);
            name == "solarizedDusk" && ThemeEntry(["dracula", "okaidia"], name) == None
  {
  }

  /** A chosen theme that is offered is always found in the library. */
  lemma ResolvedThemeFound(data: ToolData, config: ToolConfig, exportNames: seq<string>)
    ensures var name := ResolveTheme(data, config, exportNames);
            ThemeEntry(exportNames, name).None? ==>
              name == FallbackTheme(config) && FallbackTheme(config) !in exportNames
  {
    var name := ResolveTheme(data, config, exportNames);
    AllThemesMembers(exportNames, name);
  }

  /** The language chosen at render time: the first non-empty of `data.language`,
      `config.defaultLanguage` and `'java'`. Nothing checks it against the registry. */
  function ResolveLanguage(data: ToolData, config: ToolConfig): (name: string)
    ensures name != ""
    ensures Truthy(data, LanguageKey) ==> name == data[LanguageKey]
    ensures !Truthy(data, LanguageKey) && config.defaultLanguage != "" ==> name == config.defaultLanguage
    ensures name == DefaultLanguage || name == config.defaultLanguage || Lookup(data, LanguageKey) == Some(name)
  {
    if Truthy(data, LanguageKey) then data[LanguageKey]
    else if config.defaultLanguage != "" then config.defaultLanguage
    else DefaultLanguage
  }

  /** The registry lookup of the chosen language succeeds when every non-empty candidate in
      the chain is a registry key, because the last resort `'java'` is one. */
  lemma ResolvedLanguageFound(data: ToolData, config: ToolConfig)
    requires Truthy(data, LanguageKey) ==> data[LanguageKey] in AllLanguages()
    requires config.defaultLanguage != "" ==> config.defaultLanguage in AllLanguages()
    ensures LanguageEntry(ResolveLanguage(data, config)).Some?
  {
  }

  /** The lookup may miss: an unknown stored language is used as it stands. */
  lemma ResolvedLanguageMayMiss()
    ensures LanguageEntry(ResolveLanguage(map[LanguageKey := "rust"], ToolConfig("okaidia", "java"))) == None
  {
  }

  /** One entry of a picker. */
  datatype Choice = Choice(caption: string, value: string, selected: bool)

  /** A picker's entries: one per value, in order, selected when `data[key]` is that value
      (strict equality, so an absent key selects nothing). */
  function Choices(values: seq<string>, data: ToolData, key: string): (r: seq<Choice>)
    ensures |r| == |values|
    ensures forall i :: 0 <= i < |values| ==> r[i].caption == values[i] && r[i].value == values[i]
    ensures forall i :: 0 <= i < |values| ==> (r[i].selected <==> Lookup(data, key) == Some(values[i]))
  {
    seq(|values|, i requires 0 <= i < |values| => Choice(values[i], values[i], key in data && data[key] == values[i]))
  }

  /** Among distinct values, at most one entry starts selected. */
  lemma ChoicesSelectAtMostOne(values: seq<string>, data: ToolData, key: string)
    requires forall i, j :: 0 <= i < j < |values| ==> values[i] != values[j]
    ensures var r := Choices(values, data, key);
            forall i, j :: 0 <= i < |r| && 0 <= j < |r| && r[i].selected && r[j].selected ==> i == j
  {
  }

  /** The theme picker's entries: the offered themes, the stored theme selected. */
  function ThemeChoices(exportNames: seq<string>, data: ToolData): (r: seq<Choice>)
    ensures |r| == |AllThemes(exportNames)|
    ensures forall i :: 0 <= i < |r| ==>
              r[i].value == AllThemes(exportNames)[i] && (r[i].selected <==> Lookup(data, ThemeKey) == Some(r[i].value))
  {
    Choices(AllThemes(exportNames), data, ThemeKey)
  }

  /** The language picker's entries as written: the selection is compared with the stored
      THEME, so the stored language plays no part in it. */
  function LanguageChoicesAsWritten(data: ToolData): (r: seq<Choice>)
    ensures |r| == |AllLanguages()|
    ensures forall i :: 0 <= i < |r| ==> (r[i].selected <==> Lookup(data, ThemeKey) == Some(AllLanguages()[i]))
  {
    Choices(AllLanguages(), data, ThemeKey)
  }

  /** The language picker's entries as evidently intended: the stored language selected. */
  function LanguageChoices(data: ToolData): (r: seq<Choice>)
    ensures |r| == |AllLanguages()|
    ensures forall i :: 0 <= i < |r| ==>
              r[i].value == AllLanguages()[i] && (r[i].selected <==> Lookup(data, LanguageKey) == Some(r[i].value))
  {
    Choices(AllLanguages(), data, LanguageKey)
  }

  /** With the stored language a registry key and the stored theme an ordinary theme name,
      the as-written picker selects no language, while the intended one selects exactly the
      stored language. */
  lemma LanguagePickerSelection()
    ensures var data := map[ThemeKey := "okaidia", LanguageKey := "python"];
            (forall i :: 0 <= i < |AllLanguages()| ==> !LanguageChoicesAsWritten(data)[i].selected) &&
            (forall i :: 0 <= i < |AllLanguages()| ==> (LanguageChoices(data)[i].selected <==> i == 5))
  {
  }
}
