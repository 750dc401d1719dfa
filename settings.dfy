/**
 * Module configuration as the YAML decoder hands it over: a loosely typed
 * mapping from keys to values. Every module reads its own keys with a type
 * assertion and falls back to a default when the key is missing or holds a
 * value of another type.
 */
module Settings {
  import Text

  /**
   * A value the YAML decoder can produce; `Other` covers floats, lists and
   * null. A whole number is a Go int, so 64 bits wide; one that does not fit
   * decodes to another type and so is `Other` here.
   */
  datatype Value = Str(s: string) | Int(i: Text.int64) | Bool(b: bool) | Map(m: map<string, Value>) | Other

  /**
   * types.ModuleConfig. Its Go keys are `interface{}`, but every lookup in
   * the core uses a string key, so a key of another type is never read.
   */
  type ModuleConfig = map<string, Value>

  /** The string under key, or d when the key is missing or holds another type. */
  function StringOr(mc: ModuleConfig, key: string, d: string): string {
    if key in mc && mc[key].Str? then mc[key].s else d
  }

  /** The integer under key, or d when the key is missing or holds another type. */
  function IntOr(mc: ModuleConfig, key: string, d: Text.int64): Text.int64 {
    if key in mc && mc[key].Int? then mc[key].i else d
  }

  /** The bool under key, or d when the key is missing or holds another type. */
  function BoolOr(mc: ModuleConfig, key: string, d: bool): bool {
    if key in mc && mc[key].Bool? then mc[key].b else d
  }

  /** True when mc holds a string under key, the only case a string lookup takes. */
  predicate HasString(mc: ModuleConfig, key: string) {
    key in mc && mc[key].Str?
  }
}
