/**
 `UConfigManager`: the registry of mod configurations, the dirty list and the
 file system they are saved to. Every method is proved to perform exactly the
 state change that the matching function of `ManagerSpec` describes.
 */
module Manager {
  import opened ConfigTypes
  import opened ValueTree
  import opened ConfigPaths
  import opened ClassCompat
  import opened ManagerSpec

  class ConfigManager {
    const env: Env
    var configurations: map<ConfigId, Entry>
    var order: seq<ConfigId>                  // iteration order of `configurations`
    var pending: seq<ConfigId>                // PendingSaveConfigurations
    var files: map<string, FileContent>
    ghost var saveLog: seq<ConfigId>          // every call of SaveConfigurationInternal

    ghost function State(): ManagerState
      reads this
    {
      ManagerState(configurations, order, pending, files, saveLog)
    }

    ghost predicate Valid()
      reads this
    {
      Inv(State())
    }

    constructor (env: Env, files: map<string, FileContent>)
      ensures Valid() && this.env == env
      ensures State() == ManagerState(map[], [], [], files, [])
    {
      this.env := env;
      configurations, order, pending := map[], [], [];
      this.files := files;
      saveLog := [];
    }

    method SaveConfigurationInternal(id: ConfigId)
      requires Valid() && id in configurations
      modifies this
      ensures Valid() && State() == Save(old(State()), env, id)
    {
      var data := configurations[id];
      var json := Serialize(data.root);
      if id.modReference in env.loadedMods {
        json := json[ModVersionField := StringValue(env.loadedMods[id.modReference])];
      }
      var path := ConfigurationFilePath(env.rootDir, id);
      if path !in env.unwritable {
        files := files[path := Text(json)];
      }
      saveLog := saveLog + [id];
    }

    method LoadConfigurationInternal(id: ConfigId, saveOnSchemaChange: bool)
      requires Valid() && id in configurations
      modifies this
      ensures Valid() && State() == Load(old(State()), env, id, saveOnSchemaChange)
    {
      LoadKeepsInv(State(), env, id, saveOnSchemaChange);
      var path := ConfigurationFilePath(env.rootDir, id);
      if path !in files {
        if saveOnSchemaChange {
          SaveConfigurationInternal(id);
        }
        return;
      }
      var content := files[path];
      if content.Unreadable? {
        return;
      }
      if content.Malformed? {
        return;
      }
      var json := content.json;
      var data := configurations[id];
      configurations := configurations[id := data.(root := Deserialize(data.root, json))];
      if id.modReference in env.loadedMods {
        var modVersion := env.loadedMods[id.modReference];
        var fileVersion := "";
        if ModVersionField in json && json[ModVersionField].StringValue? {
          fileVersion := json[ModVersionField].s;
        }
        if saveOnSchemaChange && fileVersion != modVersion {
          SaveConfigurationInternal(id);
        }
      }
    }

    method ReloadModConfigurations(saveOnSchemaChange: bool)
      requires Valid()
      modifies this
      ensures Valid() && State() == Reload(old(State()), env, saveOnSchemaChange)
    {
      var i := 0;
      while i < |order|
        invariant 0 <= i <= |order| && order == old(order) && Valid()
        invariant LoadAll(State(), env, order[i..], saveOnSchemaChange) == Reload(old(State()), env, saveOnSchemaChange)
      {
        assert order[i..][1..] == order[i + 1..];
        LoadConfigurationInternal(order[i], saveOnSchemaChange);
        i := i + 1;
      }
    }

    method FlushPendingSaves()
      requires Valid()
      modifies this
      ensures Valid() && State() == Flush(old(State()), env)
    {
      var i := 0;
      while i < |pending|
        invariant 0 <= i <= |pending| && pending == old(pending) && Valid()
        invariant SaveAll(State(), env, pending[i..]) == SaveAll(old(State()), env, old(pending))
      {
        assert pending[i..][1..] == pending[i + 1..];
        SaveConfigurationInternal(pending[i]);
        i := i + 1;
      }
      pending := [];
    }

    method MarkConfigurationDirty(id: ConfigId)
      requires Valid() && id in configurations
      modifies this
      ensures Valid() && State() == MarkDirty(old(State()), id)
    {
      if id !in pending {
        pending := pending + [id];
      }
      ReinitializeCachedStructs(id);
    }

    method ReinitializeCachedStructs(id: ConfigId)
      requires Valid() && id in configurations
      modifies this
      ensures Valid() && State() == RefreshCache(old(State()), id)
    {
      var data := configurations[id];
      var remaining := data.cache.Keys;
      var refreshed: map<StructType, Section> := map[];
      while remaining != {}
        invariant remaining <= data.cache.Keys
        invariant refreshed.Keys == data.cache.Keys - remaining
        invariant forall t :: t in refreshed ==> refreshed[t] == FillStructSelf(data.root, data.cache[t])
        decreases remaining
      {
        var t :| t in remaining;
        refreshed := refreshed[t := FillStructSelf(data.root, data.cache[t])];
        remaining := remaining - {t};
      }
      assert refreshed == Reinitialize(data).cache;
      configurations := configurations[id := data.(cache := refreshed)];
    }

    method FillConfigurationStruct(id: ConfigId, info: StructInfo) returns (value: Section)
      requires Valid() && id in configurations
      modifies this
      ensures Valid() && (State(), value) == Fill(old(State()), id, info)
    {
      var data := configurations[id];
      if info.structType in data.cache {
        value := data.cache[info.structType];
        return;
      }
      value := FillStructSelf(data.root, info.value);
      configurations := configurations[id := data.(cache := data.cache[info.structType := value])];
    }

    method ReplaceConfigurationClass(id: ConfigId, newClass: ConfigClass)
      requires Valid() && id in configurations
      modifies this
      ensures Valid() && State() == Replace(old(State()), env, id, newClass)
    {
      var data := configurations[id];
      var snapshot := Serialize(data.root);
      var root := CreateNewValue(newClass.rootSection);
      root := Deserialize(root, snapshot);
      configurations := configurations[id := data.(configClass := newClass, root := root)];
      ReinitializeCachedStructs(id);
      SaveConfigurationInternal(id);
    }

    method RegisterModConfiguration(id: ConfigId, newClass: ConfigClass)
      requires Valid()
      modifies this
      ensures Valid() && State() == Register(old(State()), env, id, newClass)
    {
      if id in configurations {
        // Compatibility only decides whether a warning is logged.
        var compatible := IsCompatibleConfigurationClassChange(configurations[id].configClass, newClass);
        ReplaceConfigurationClass(id, newClass);
        return;
      }
      var root := CreateNewValue(newClass.rootSection);
      configurations := configurations[id := Entry(id, newClass, root, map[])];
      order := order + [id];
    }
  }
}
