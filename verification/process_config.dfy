/**
 The process configuration of internal/components/types/process_config.go;
 components/process_input/process_config.go is the same code over the
 public `Mutexes` type and behaves identically, so one model serves both.

 The reference is known by the name it was built from, the logger only by
 whether one is stored, and the metadata map may be nil.
 */
module ProcessConfig {
  import opened Wrappers
  import Metadata

  datatype Config = Config(
    name: string,
    hasLogger: bool,
    isRunning: bool,
    waitFor: bool,
    restart: bool,
    processType: string,
    metadata: Option<map<string, Metadata.Any>>)

  /**
   `newProcessConfig(name, wait, restart, typ, metadata, logger, debug)`:
   the flags, type and metadata (possibly nil) are copied; the logger
   argument is defaulted but never stored, and the process is not running.
   */
  function NewProcessConfig(name: string, wait: bool, restart: bool, typ: string,
                            metadata: Option<map<string, Metadata.Any>>, logger: bool): (c: Config)
    ensures c.name == name && c.waitFor == wait && c.restart == restart
    ensures c.processType == typ && c.metadata == metadata
    ensures !c.isRunning && !c.hasLogger
  {
    Config(name, false, false, wait, restart, typ, metadata)
  }

  /** `GetMetadata(key)`: (nil, false) on a nil map, otherwise the value and whether the key exists; "" is an ordinary key here. */
  function GetMetadata(c: Config, key: string): (r: (Option<Metadata.Any>, bool))
    ensures r.1 <==> c.metadata.Some? && key in c.metadata.value
    ensures r.1 ==> r.0 == Some(c.metadata.value[key])
    ensures !r.1 ==> r.0.None?
  {
    match c.metadata
    case None => (None, false)
    case Some(m) => if key in m then (Some(m[key]), true) else (None, false)
  }

  /** `SetMetadata(key, value)`: a nil map is created first; then key := value, and nothing else changes. */
  function SetMetadata(c: Config, key: string, value: Metadata.Any): (r: Config)
    ensures r.metadata.Some? && key in r.metadata.value && r.metadata.value[key] == value
    ensures r.metadata.value.Keys == c.metadata.GetOr(map[]).Keys + {key}
    ensures forall k :: k in c.metadata.GetOr(map[]) && k != key ==> r.metadata.value[k] == c.metadata.value[k]
    ensures r.(metadata := c.metadata) == c
  {
    c.(metadata := Some(c.metadata.GetOr(map[])[key := value]))
  }

  /** A value set is read back, and every other key reads as before, whether or not the map was nil. */
  lemma GetAfterSet(c: Config, key: string, value: Metadata.Any, other: string)
    requires other != key
    ensures GetMetadata(SetMetadata(c, key, value), key) == (Some(value), true)
    ensures GetMetadata(SetMetadata(c, key, value), other) == GetMetadata(c, other)
  {
  }

  /** A freshly built configuration with nil metadata reports every key missing. */
  lemma FreshNilMetadataEmpty(name: string, wait: bool, restart: bool, typ: string, logger: bool, key: string)
    ensures GetMetadata(NewProcessConfig(name, wait, restart, typ, None, logger), key) == (None, false)
  {
  }
}
