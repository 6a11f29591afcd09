/**
 * The parsed `config.yaml` document and the two-level key lookups the core performs
 * on it (`config[section][key]`). Reading and parsing the file is not part of this model.
 */
module Config {
  import opened Wrappers

  /** A YAML value as `yaml.safe_load` produces it (floating-point scalars are not modelled). */
  datatype Yaml =
    | YNull
    | YBool(b: bool)
    | YInt(i: int)
    | YStr(s: string)
    | YList(items: seq<Yaml>)
    | YMap(entries: map<string, Yaml>)

  /** The top-level mapping returned by `load_config()`. */
  type Config = map<string, Yaml>

  /**
   * What a failing `config[section][key]` raises: KeyError for a missing key, or
   * TypeError when `config[section]` is not a mapping.
   */
  datatype ConfigError = KeyError(key: string) | NotAMapping(section: string)

  /** The lookup `config[section][key]` succeeds. */
  predicate HasEntry(cfg: Config, section: string, key: string)
  {
    section in cfg && cfg[section].YMap? && key in cfg[section].entries
  }

  /** `config[section][key]`. */
  function Lookup(cfg: Config, section: string, key: string): (r: Result<Yaml, ConfigError>)
    ensures r.Success? <==> HasEntry(cfg, section, key)
    ensures r.Success? ==> r.value == cfg[section].entries[key]
    ensures section !in cfg ==> r == Failure(KeyError(section))
    ensures section in cfg && !cfg[section].YMap? ==> r == Failure(NotAMapping(section))
    ensures section in cfg && cfg[section].YMap? && key !in cfg[section].entries ==> r == Failure(KeyError(key))
  {
    if section !in cfg then Failure(KeyError(section))
    else match cfg[section]
      case YMap(entries) =>
        if key in entries then Success(entries[key]) else Failure(KeyError(key))
      case _ => Failure(NotAMapping(section))
  }
}
