/** The shapes the tool passes around: the block's data `{code?, theme?, language?}`,
    the tool configuration, and the one merge rule (`Object.assign`) applied to both. */
module ToolTypes {

  datatype Option<T> = None | Some(value: T)

  function GetOr<T>(o: Option<T>, default: T): T
  {
    match o
    case Some(v) => v
    case None => default
  }

  /** A plain JavaScript object with string values: a key that is absent is not in the map. */
  type Record = map<string, string>

  /** The block's data. Every key is optional; the keys the tool itself uses are the three below,
      and any other key the host stored is carried along untouched. */
  type ToolData = Record

  const CodeKey := "code"
  const ThemeKey := "theme"
  const LanguageKey := "language"

  /** The tool configuration as the editor adapter sees it, after defaulting. */
  datatype ToolConfig = ToolConfig(defaultTheme: string, defaultLanguage: string)

  /** Property access `r[key]`: `undefined` when the key is absent. */
  function Lookup(r: Record, key: string): (v: Option<string>)
    ensures v.Some? <==> key in r
    ensures v.Some? ==> v.value == r[key]
  {
    if key in r then Some(r[key]) else None
  }

  /** JavaScript truthiness of a string-valued property: `undefined` and `""` are falsy. */
  predicate Truthy(r: Record, key: string)
  {
    key in r && r[key] != ""
  }

  /** `Object.assign(target, source)`: every key present in `source` is overwritten with its
      value there, every other key of `target` keeps its value. */
  function Assign(target: Record, source: Record): (r: Record)
    ensures r.Keys == target.Keys + source.Keys
    ensures forall k :: k in source ==> r[k] == source[k]
    ensures forall k :: k in target && k !in source ==> r[k] == target[k]
  {
    target + source
  }

  /** Merging the same partial twice is the same as merging it once. */
  lemma AssignIdempotent(target: Record, source: Record)
    ensures Assign(Assign(target, source), source) == Assign(target, source)
  {
  }

  /** Merging an empty partial changes nothing. */
  lemma AssignEmpty(target: Record)
    ensures Assign(target, map[]) == target
  {
  }

  /** Merging a one-key partial is an update of that key. */
  lemma AssignSingle(target: Record, key: string, value: string)
    ensures Assign(target, map[key := value]) == target[key := value]
  {
  }
}
