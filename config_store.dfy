/** The main process's configuration store (src/main/config.js): one JSON
    object kept in `config.json`, re-read by every operation, and written back
    with the default table merged underneath whatever is saved. */
module ConfigStore {
  import opened Values

  /** `defaultConfig`. */
  const Defaults: map<string, Value> :=
    map[
      "username" := Str(""),
      "password" := Str(""),
      "callsign" := Str(""),
      "startMinimized" := Bool(false),
      "startInTray" := Bool(true),
      "lastState" := Obj(map[])
    ]

  /** What the store shows in place of a non-empty password. */
  const Mask: string := "********"

  /** `loadConfig()` for a file content: the parsed table, or a fresh copy of
      the defaults when the file is missing or does not parse. */
  function Load(file: Option<map<string, Value>>): (r: map<string, Value>)
    ensures file.Some? ==> r == file.value
    ensures file.None? ==> r == Defaults && forall k :: k in Defaults ==> k in r
  {
    if file.Some? then file.value else Defaults
  }

  /** `{ ...defaultConfig, ...c }`: the table `saveConfig(c)` writes. */
  function Complete(c: map<string, Value>): (r: map<string, Value>)
    ensures r.Keys == Defaults.Keys + c.Keys
    ensures forall k :: k in c ==> r[k] == c[k]
    ensures forall k :: k in Defaults && k !in c ==> r[k] == Defaults[k]
  {
    Defaults + c
  }

  /** `get(key)` over a loaded table: the stored value, else the default, else `undefined`. */
  function GetFrom(c: map<string, Value>, k: string): (r: Option<Value>)
    ensures r.None? <==> k !in c && k !in Defaults
    ensures k in c ==> r == Some(c[k])
    ensures k !in c && k in Defaults ==> r == Some(Defaults[k])
  {
    if k in c then Some(c[k]) else Lookup(Defaults, k)
  }

  /** `getSafeConfig()` over a loaded table. */
  function SafeView(c: map<string, Value>): (r: map<string, Value>)
    ensures r.Keys == c.Keys + {"password"}
    ensures forall k :: k in c && k != "password" ==> r[k] == c[k]
    ensures r["password"] == Str(if TruthyAt(c, "password") then Mask else "")
  {
    c["password" := Str(if TruthyAt(c, "password") then Mask else "")]
  }

  class Store {
    /** The content of `config.json`: `None` when the file is missing or does not parse. */
    var file: Option<map<string, Value>>
    /** Whether the file system accepts the directory creation and the write. */
    var writable: bool

    constructor (file: Option<map<string, Value>>, writable: bool)
      ensures this.file == file && this.writable == writable
    {
      this.file := file;
      this.writable := writable;
    }

    /** `loadConfig()` / `getAll()`. */
    function LoadConfig(): (r: map<string, Value>)
      reads this
      ensures file.Some? ==> r == file.value
      ensures file.None? ==> r == Defaults
    {
      Load(file)
    }

    /** `saveConfig(newConfig)`: writes the defaults overlaid with `newConfig`,
        or with the loaded table when `newConfig` is null; reports whether the
        write went through. */
    method SaveConfig(newConfig: Option<map<string, Value>>) returns (saved: bool)
      modifies this`file
      ensures saved == writable
      ensures saved ==> file == Some(Complete(newConfig.GetOr(old(LoadConfig()))))
      ensures !saved ==> file == old(file)
    {
      var configToSave := if newConfig.Some? then newConfig.value else LoadConfig();
      if writable {
        file := Some(Complete(configToSave));
      }
      saved := writable;
    }

    /** `getSafeConfig()`. */
    function GetSafeConfig(): (r: map<string, Value>)
      reads this
      ensures r.Keys == LoadConfig().Keys + {"password"}
      ensures forall k :: k in LoadConfig() && k != "password" ==> r[k] == LoadConfig()[k]
      ensures r["password"] == Str(Mask) || r["password"] == Str("")
      ensures r["password"] == Str("") <==> !TruthyAt(LoadConfig(), "password")
    {
      SafeView(LoadConfig())
    }

    /** `get(key)`. */
    function Get(k: string): (r: Option<Value>)
      reads this
      ensures k in LoadConfig() ==> r == Some(LoadConfig()[k])
      ensures k !in LoadConfig() ==> r == Lookup(Defaults, k)
    {
      GetFrom(LoadConfig(), k)
    }

    /** `set(key, value)`: stores the value, saves the whole table, and returns
        the value whether or not the save went through. */
    method Set(k: string, v: Value) returns (r: Value)
      modifies this`file
      ensures r == v
      ensures writable ==> file == Some(Complete(old(LoadConfig())[k := v]))
      ensures !writable ==> file == old(file)
    {
      var config := LoadConfig();
      config := config[k := v];
      var saved := SaveConfig(Some(config));
      r := v;
    }

    /** `has(key)`. */
    function Has(k: string): (r: bool)
      reads this
      ensures r <==> k in LoadConfig()
      ensures r ==> Get(k).Some?
      ensures !r && k !in Defaults ==> Get(k).None?
    {
      k in LoadConfig()
    }

    /** `deleteKey(key)`: removes a present key and saves; the save puts a
        default key straight back. */
    method DeleteKey(k: string) returns (deleted: bool)
      modifies this`file
      ensures deleted == (k in old(LoadConfig()))
      ensures deleted && writable ==> file == Some(Complete(old(LoadConfig()) - {k}))
      ensures !deleted || !writable ==> file == old(file)
    {
      var config := LoadConfig();
      if k in config {
        config := config - {k};
        var saved := SaveConfig(Some(config));
        deleted := true;
      } else {
        deleted := false;
      }
    }

    /** `clear()`: saves a copy of the defaults and reports success regardless. */
    method Clear() returns (cleared: bool)
      modifies this`file
      ensures cleared
      ensures writable ==> file == Some(Defaults)
      ensures !writable ==> file == old(file)
    {
      var saved := SaveConfig(Some(Defaults));
      assert Complete(Defaults) == Defaults;
      cleared := true;
    }
  }

  // ---------------------------------------------------------------------------
  // Properties of the stored table

  /** After any successful save every default key is present again. */
  lemma SavedHasDefaults(c: map<string, Value>)
    ensures forall k :: k in Defaults ==> k in Load(Some(Complete(c)))
    ensures forall k :: k in c ==> Load(Some(Complete(c)))[k] == c[k]
  {
  }

  /** A successful `set(k, v)`: `get(k)` gives `v`, every other `get` is unchanged. */
  lemma SetThenGet(file: Option<map<string, Value>>, k: string, v: Value, other: string)
    requires other != k
    ensures GetFrom(Load(Some(Complete(Load(file)[k := v]))), k) == Some(v)
    ensures GetFrom(Load(Some(Complete(Load(file)[k := v]))), other) == GetFrom(Load(file), other)
  {
  }

  /** Deleting a default key writes it back with its default value: `has(k)` stays true. */
  lemma DeleteDefaultKeyReturns(file: Option<map<string, Value>>, k: string)
    requires k in Defaults
    ensures var after := Load(Some(Complete(Load(file) - {k})));
            k in after && after[k] == Defaults[k]
  {
  }

  /** Deleting a key that has no default makes it absent. */
  lemma DeleteOtherKeyRemoves(file: Option<map<string, Value>>, k: string)
    requires k !in Defaults
    ensures k !in Load(Some(Complete(Load(file) - {k})))
  {
  }

  /** Saving a completed table again changes nothing. */
  lemma CompleteIdempotent(c: map<string, Value>)
    ensures Complete(Complete(c)) == Complete(c)
  {
  }

  /** The safe view never reveals a stored password. */
  lemma SafeViewHidesPassword(c: map<string, Value>)
    ensures SafeView(c)["password"] == Str(Mask) || SafeView(c)["password"] == Str("")
    ensures SafeView(c)["password"] == Str("") <==> !TruthyAt(c, "password")
  {
  }
}
