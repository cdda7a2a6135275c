/**
 * The configuration manager (`ConfigManager`): an in-memory dictionary of
 * settings, read with a fallback default, written key by key or merged, and
 * written back to the configuration file after every change. The file is
 * abstracted to what loading it yields; JSON encoding and decoding are not
 * modelled.
 */
module Config {

  import opened Wrappers
  import opened PyValues

  /** What reading the configuration file yields. */
  datatype ConfigFile =
    | Missing                                  // no file at the configured path
    | Unreadable                               // the file exists but does not decode
    | Json(contents: map<string, Value>)       // the file decodes to this dictionary

  /** The settings used, and written out, when the file yields nothing. */
  const DefaultConfig: map<string, Value> := map[
    "app_title" := PyStr("XX单位收文档案管理系统"),
    "full_org_code" := PyStr("X001"),
    "default_password" := PyStr("123"),
    "super_password" := PyStr("admin123"),
    "font_size" := PyInt(12),
    "data_path" := PyStr("./data"),
    "backup_path" := PyStr("./backup"),
    "template_path" := PyStr("./templates"),
    "export_path" := PyStr("./export"),
    "attachment_path" := PyStr("./attachments"),
    "default_open_path" := PyStr("./attachments"),
    "word_template_path" := PyStr("./templates/word"),
    "excel_template_path" := PyStr("./templates/excel"),
    "json_path" := PyStr("./json"),
    "backup_retain_count" := PyInt(10),
    "auto_backup_on_startup" := PyBool(true),
    "auto_backup_on_exit" := PyBool(true),
    "window_width" := PyInt(1200),
    "window_height" := PyInt(800),
    "list_column_widths" := PyDict(map[]),
    "list_column_order" := PyDict(map[]),
    "visible_columns" := PyDict(map[]),
    "row_height" := PyInt(30),
    "font_scale" := PyFloat(1.0)
  ]

  /** Python's `d.get(key, default)`. */
  function Lookup(m: map<string, Value>, key: string, default: Value): (v: Value)
    ensures key in m ==> v == m[key]
    ensures key !in m ==> v == default
  {
    if key in m then m[key] else default
  }

  /** The settings that loading yields: the file's dictionary, or the defaults. */
  function LoadedConfig(file: ConfigFile): (m: map<string, Value>)
    ensures file.Json? ==> m == file.contents
    ensures !file.Json? ==> m == DefaultConfig
  {
    if file.Json? then file.contents else DefaultConfig
  }

  /** The default settings carry the two login secrets and a 12-point font. */
  lemma DefaultSecrets()
    ensures Lookup(DefaultConfig, "default_password", PyNone) == PyStr("123")
    ensures Lookup(DefaultConfig, "super_password", PyNone) == PyStr("admin123")
    ensures Lookup(DefaultConfig, "font_size", PyNone) == PyInt(12)
  {
  }

  /** Reading back a key after writing it gives the written value; other keys read as before. */
  lemma LookupAfterSet(m: map<string, Value>, key: string, value: Value, other: string, default: Value)
    ensures Lookup(m[key := value], key, default) == value
    ensures other != key ==> Lookup(m[key := value], other, default) == Lookup(m, other, default)
  {
  }

  /** After a merge, the keys of the update read as the update; the others read as before. */
  lemma LookupAfterUpdate(m: map<string, Value>, updates: map<string, Value>, key: string, default: Value)
    ensures key in updates ==> Lookup(m + updates, key, default) == updates[key]
    ensures key !in updates ==> Lookup(m + updates, key, default) == Lookup(m, key, default)
    ensures (m + updates).Keys == m.Keys + updates.Keys
  {
  }

  /** Writing the same key twice is writing it once; merging nothing changes nothing. */
  lemma WritesAreIdempotent(m: map<string, Value>, key: string, value: Value)
    ensures m[key := value][key := value] == m[key := value]
    ensures m + map[] == m
  {
  }

  class ConfigManager {
    /** The settings in memory. */
    var config: map<string, Value>
    /** What the configuration file holds. */
    var file: ConfigFile
    /** Whether writing the file succeeds; a failed write is reported and otherwise ignored. */
    const writable: bool

    /** `__init__`: load the settings from the file, falling back to the defaults. */
    constructor (file: ConfigFile, writable: bool)
      ensures this.writable == writable
      ensures config == LoadedConfig(file)
      ensures this.file == if file.Json? || !writable then file else Json(DefaultConfig)
    {
      this.writable := writable;
      this.file := file;
      new;
      config := LoadConfig();
    }

    /**
     * `load_config`: the file's dictionary when it decodes; otherwise the
     * default settings, which are also written out.
     */
    method LoadConfig() returns (loaded: map<string, Value>)
      modifies this`file
      ensures loaded == LoadedConfig(old(file))
      ensures file == if old(file).Json? || !writable then old(file) else Json(DefaultConfig)
    {
      if file.Json? {
        return file.contents;
      }
      loaded := DefaultConfig;
      SaveConfig(Some(loaded));
    }

    /** `save_config`: write the given settings, or the in-memory ones when given none. */
    method SaveConfig(settings: Option<map<string, Value>>)
      modifies this`file
      ensures file == if !writable then old(file)
                      else if settings.Some? then Json(settings.value)
                      else Json(config)
    {
      var toWrite := if settings.Some? then settings.value else config;
      if writable {
        file := Json(toWrite);
      }
    }

    /** `get`: the stored value of `key`, or `default` when there is none. */
    function Get(key: string, default: Value): (v: Value)
      reads this
      ensures key in config ==> v == config[key]
      ensures key !in config ==> v == default
    {
      Lookup(config, key, default)
    }

    /** `set`: store one value, then write all settings to the file. */
    method Set(key: string, value: Value)
      modifies this`config, this`file
      ensures config == old(config)[key := value]
      ensures Get(key, PyNone) == value
      ensures forall other :: other != key ==> Get(other, PyNone) == old(Get(other, PyNone))
      ensures file == if writable then Json(config) else old(file)
    {
      config := config[key := value];
      SaveConfig(None);
    }

    /** `update`: merge several values, then write all settings to the file. */
    method Update(updates: map<string, Value>)
      modifies this`config, this`file
      ensures config == old(config) + updates
      ensures forall key :: key in updates ==> Get(key, PyNone) == updates[key]
      ensures forall key :: key !in updates ==> Get(key, PyNone) == old(Get(key, PyNone))
      ensures file == if writable then Json(config) else old(file)
    {
      config := config + updates;
      SaveConfig(None);
    }
  }
}
