/** The language registry: a constant table from a language identifier to the syntax
    configuration of the code-editing library. Only its keys, in declaration order, are
    modelled; the configuration objects themselves are opaque and stand here as their key. */
module Languages {
  import opened ToolTypes

  /** The keys of the mapping, in the order they are declared. */
  const LanguageKeys: seq<string> := ["javascript", "java", "json", "html", "css", "python", "vue"]

  /** `getAllLanguage()`: `Object.keys` of the mapping, so the keys in declaration order. */
  function AllLanguages(): (keys: seq<string>)
    ensures "java" in keys
    ensures forall i, j :: 0 <= i < j < |keys| ==> keys[i] != keys[j]
  {
    LanguageKeys
  }

  /** `LANGUAGES_MAPPING[name]`: the entry for `name`, or `undefined` when there is none. */
  function LanguageEntry(name: string): (e: Option<string>)
    ensures e.Some? <==> name in AllLanguages()
    ensures e.Some? ==> e.value == name
  {
    if name in LanguageKeys then Some(name) else None
  }
}
