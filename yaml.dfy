/** An abstract YAML document, as the configuration API hands it to the
    plugin after parsing. Each value carries the text its `toString()` gives
    and its runtime kind; a section is the ordered list of its keys and values.
    The getters below follow the Bukkit configuration API's rules: a numeric
    getter accepts any number and falls back to its default otherwise, the
    `isX` tests look at the exact runtime kind, and `getString` returns the
    value's text whatever its kind. */
module Yaml {
  import opened Common

  datatype Value = Value(text: string, kind: Kind)

  datatype Kind =
    | StrK
    | IntK(i: int)
    | DblK(d: real)
    | BoolK(b: bool)
    | ListK
    | SectionK(entries: seq<(string, Value)>)

  /** A configuration section (the root of a file is one too). */
  type Section = seq<(string, Value)>

  function Get(s: Section, key: string): Option<Value> {
    Lookup(s, key)
  }

  /** `getKeys(false)`: the section's own keys, in document order. */
  function SectionKeys(s: Section): seq<string> {
    Keys(s)
  }

  predicate IsString(s: Section, key: string) {
    Get(s, key).Some? && Get(s, key).value.kind.StrK?
  }

  predicate IsDouble(s: Section, key: string) {
    Get(s, key).Some? && Get(s, key).value.kind.DblK?
  }

  /** `getInt(key, def)`: a number is converted with Java's `(int)`; anything
      else, or a missing key, gives the default. */
  function GetInt(s: Section, key: string, def: int): (r: int)
    ensures Get(s, key).None? ==> r == def
  {
    match Get(s, key)
    case Some(Value(_, IntK(i))) => i
    case Some(Value(_, DblK(d))) => TruncateToInt(d)
    case _ => def
  }

  /** `getDouble(key, def)`. */
  function GetDouble(s: Section, key: string, def: real): (r: real)
    ensures Get(s, key).None? ==> r == def
  {
    match Get(s, key)
    case Some(Value(_, IntK(i))) => i as real
    case Some(Value(_, DblK(d))) => d
    case _ => def
  }

  /** `getBoolean(key, def)`. */
  function GetBoolean(s: Section, key: string, def: bool): (r: bool)
    ensures Get(s, key).None? ==> r == def
  {
    match Get(s, key)
    case Some(Value(_, BoolK(b))) => b
    case _ => def
  }

  /** `getString(key, def)`: the value's text, or the default when missing. */
  function GetString(s: Section, key: string, def: string): (r: string)
    ensures Get(s, key).None? ==> r == def
    ensures IsString(s, key) ==> r == Get(s, key).value.text
  {
    match Get(s, key)
    case Some(v) => v.text
    case None => def
  }

  /** `getConfigurationSection(key)`: present only when the value is a section. */
  function GetSection(s: Section, key: string): (r: Option<Section>)
    ensures r.Some? <==> Get(s, key).Some? && Get(s, key).value.kind.SectionK?
  {
    match Get(s, key)
    case Some(Value(_, SectionK(e))) => Some(e)
    case _ => None
  }
}
