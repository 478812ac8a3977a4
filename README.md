# Mod configuration manager (SatisfactoryModLoader `UConfigManager`)

A Dafny model of the mod configuration manager of SatisfactoryModLoader
(`Source/SML/Private/Configuration/ConfigManager.cpp`). The manager has these parts:
- A registry from a configuration id to its registered data. The id is a mod reference plus an optional category. The data is a configuration class, a root value tree and a cache of filled structs.
- The load and save paths between that registry and JSON files under `<root>configs/`.
- A dirty list that is flushed to disk.
- The struct cache served by `FillConfigurationStruct`.

Files:

- `config_types.dfy` (module `ConfigTypes`): the entities. These are `ConfigId`, `ConfigClass` (schema and class flags), `Entry` (`FRegisteredConfigurationData`), scalar values, file contents and the environment the manager reads: the root directory, the loaded mods and their versions, and the paths whose writes fail.
- `value_tree.dfy` (`ValueTree`): stand-ins for the value-tree operations whose code lies outside the manager (`CreateNewValue`, `Serialize`, `Deserialize`, `FillConfigStructSelf`). `CreateNewValue` gives the schema's defaults and `Serialize` the tree itself; `Deserialize` and `FillConfigStructSelf` are one default-preserving merge.
- `config_paths.dfy` (`ConfigPaths`): `GetConfigurationFolderPath` / `GetConfigurationFilePath`.
- `class_compat.dfy` (`ClassCompat`): `IsCompatibleConfigurationClassChange`.
- `manager_spec.dfy` (`ManagerSpec`): the manager's state as a value, one function per operation from the old state to the new one, and the lemmas about them.
- `manager.dfy` (`Manager`): class `ConfigManager`. It has the registry, its iteration order, the dirty list and the file map as fields, plus a ghost log of every save call. Each method performs the operation step by step as the C++ does. Its `ensures` equates the new state with the `ManagerSpec` function of the old state.

Behaviour of the code that the model keeps:
- Registering an id that is already registered always replaces the class and saves the file, even when the class is the same one.
- Registration does not load the file.
- `LoadConfigurationInternal` deserializes into the tree without refreshing the struct cache. Freshness of the cache is therefore established by `MarkConfigurationDirty`, `ReinitializeCachedStructs` and `ReplaceConfigurationClass`. It is not an invariant.

## Model

| member | source | states |
|---|---|---|
| `ConfigPaths.ConfigurationFilePath` | Source/SML/Private/Configuration/ConfigManager.cpp:258-270 | the path is the `configs/` folder under the root, then the file stem, then `.cfg`; the stem is the mod reference, or `mod/category` when the category is not empty |
| `ConfigPaths.CategoryDecidesDirectory` | Source/SML/Private/Configuration/ConfigManager.cpp:264-269 | for separator-free names, the stem holds a directory separator exactly when the category is non-empty, and then the mod reference is the directory |
| `ConfigPaths.StemInjective` | Source/SML/Private/Configuration/ConfigManager.cpp:264-269 | two ids with separator-free mod references and equal stems are the same id |
| `ConfigPaths.FilePathInjective` | Source/SML/Private/Configuration/ConfigManager.cpp:258-270 | distinct ids whose mod references hold no `/` never share a file |
| `ConfigPaths.SlashedModReferenceCollides` | Source/SML/Private/Configuration/ConfigManager.cpp:262-270 | without that restriction `("A/B", "")` and `("A", "B")` are different ids with the same file, and so are `("A/B", "C")` and `("A", "B/C")`, both with a category |
| `ConfigPaths.SeparatorAfterMod` | Source/SML/Private/Configuration/ConfigManager.cpp:269 | in `mod/category` the character right after the mod reference is the separator |
| `ClassCompat.IsCompatibleConfigurationClassChange` | Source/SML/Private/Configuration/ConfigManager.cpp:207-224 | the same class is compatible; a compatible different class requires the old class to be flagged as having a newer version and to come from a blueprint |
| `ClassCompat.CompatibleChangeOfClass` | Source/SML/Private/Configuration/ConfigManager.cpp:213-223 | for a different class, both directions: compatible iff the old class is flagged outdated and its generating blueprint's current class is the new class |
| `ClassCompat.CompatibleSuccessorUnique` | Source/SML/Private/Configuration/ConfigManager.cpp:213-219 | an old class is compatible with at most one class other than itself |
| `ValueTree.Overlay` | Source/SML/Private/Configuration/ConfigManager.cpp:97 | merging keeps the target's fields and kinds; a target field the source has with the same kind takes the source's value, every other field keeps the target's |
| `ValueTree.CreateNewValue` | Source/SML/Private/Configuration/ConfigManager.cpp:244 | a fresh root value conforms to the schema it is created from |
| `ValueTree.Deserialize` | Source/SML/Private/Configuration/ConfigManager.cpp:97 | deserializing keeps the tree's fields, copies in every raw field of the same name and kind, leaves missing or mistyped fields unchanged, and keeps the tree conforming to its schema |
| `ValueTree.FillStructSelf` | Source/SML/Private/Configuration/ConfigManager.cpp:164 | filling a struct keeps its fields and their kinds; a field the tree has with the same kind takes the tree's value, every other field keeps the struct's value, so afterwards the struct reflects the tree |
| `ValueTree.ReflectsIffFillIsNoOp` | Source/SML/Private/Configuration/ConfigManager.cpp:143 | refilling a struct changes nothing exactly when it already holds the tree's values |
| `ValueTree.FillIdempotent` | Source/SML/Private/Configuration/ConfigManager.cpp:142-144 | filling twice from the same tree is filling once |
| `ValueTree.SerializeRoundTrip` | Source/SML/Private/Configuration/ConfigManager.cpp:187-198 | deserializing a tree's snapshot into a fresh tree of the same schema restores the tree |
| `ValueTree.MigrationKeepsMatchingFields` | Source/SML/Private/Configuration/ConfigManager.cpp:187-198 | after migration into a schema, a property keeps the old value when the old tree had it with that kind and takes the default otherwise |
| `ManagerSpec.SavedObject` | Source/SML/Private/Configuration/ConfigManager.cpp:31-44 | the written object carries the `SML_ModVersion_DoNotChange` field with the mod's version when the mod is loaded, is the plain snapshot otherwise, and holds every other field of the tree unchanged |
| `ManagerSpec.FileVersion` | Source/SML/Private/Configuration/ConfigManager.cpp:104-107 | the stored version is the string-typed version field when the file has one, and empty otherwise |
| `ManagerSpec.Save` | Source/SML/Private/Configuration/ConfigManager.cpp:27-61 | a save is logged once, changes no file but its own path, writes the stamped object there when writable and changes nothing on disk when the write fails |
| `ManagerSpec.SaveStampsVersion` | Source/SML/Private/Configuration/ConfigManager.cpp:39-56 | after a writable save of a loaded mod the file's version is the mod's version |
| `ManagerSpec.LoadedRoot` | Source/SML/Private/Configuration/ConfigManager.cpp:94-97 | the tree is deserialized from the file exactly when the file exists and parses |
| `ManagerSpec.Load` | Source/SML/Private/Configuration/ConfigManager.cpp:63-114 | absent file: tree unchanged, saved iff the flag is set; read or parse failure: nothing changes; parsed: tree deserialized, resaved iff flag, mod loaded and stored version (empty if missing) differs; never more than one save; a save writes the stamped loaded tree to its own path when writable and nothing when not, and no other path changes |
| `ManagerSpec.LoadRefreshesVersionStamp` | Source/SML/Private/Configuration/ConfigManager.cpp:70-114 | loading with the flag a loaded mod's configuration whose file is missing or parses leaves a file carrying the current mod version |
| `ManagerSpec.LoadSetsFileValues` | Source/SML/Private/Configuration/ConfigManager.cpp:94-97 | a load of a file that parses puts every field the file holds with the field's kind into the tree and keeps every other field |
| `ManagerSpec.LoadKeepsInv` | Source/SML/Private/Configuration/ConfigManager.cpp:94-97 | a load keeps the registry invariant: the loaded tree still conforms to its class's schema |
| `ManagerSpec.LoadAll` | Source/SML/Private/Configuration/ConfigManager.cpp:22-24 | loading a list of configurations keeps the registry's ids, its order and the dirty list |
| `ManagerSpec.LoadAllChangesOnlyListedTrees` | Source/SML/Private/Configuration/ConfigManager.cpp:22-24 | loading a list changes nothing but the trees of listed configurations and keeps the invariant |
| `ManagerSpec.LoadAllSavesOnlyListed` | Source/SML/Private/Configuration/ConfigManager.cpp:22-24 | loading a list only appends to the save log, and only saves of listed configurations |
| `ManagerSpec.LoadAllWithoutFlagWritesNothing` | Source/SML/Private/Configuration/ConfigManager.cpp:22-24 | loading a list without the flag changes no file and logs no save |
| `ManagerSpec.Reload` | Source/SML/Private/Configuration/ConfigManager.cpp:19-25 | reloading keeps the registry's ids, classes and caches, the dirty list and the invariant, only appends to the save log, and without the flag writes nothing |
| `ManagerSpec.LoadAllWithoutSaving` | Source/SML/Private/Configuration/ConfigManager.cpp:22-24 | loading a duplicate-free list without the flag gives each listed id the tree read from the original file system |
| `ManagerSpec.ReloadWithoutSavingReadsEachFile` | Source/SML/Private/Configuration/ConfigManager.cpp:19-25 | a reload without the flag writes nothing and gives every configuration the tree read from its own file |
| `ManagerSpec.SavingIds` | Source/SML/Private/Configuration/ConfigManager.cpp:19-25 | the configurations of a list whose load decides to save: exactly the listed ones for which the save condition holds |
| `ManagerSpec.SavingIdsSameFiles` | Source/SML/Private/Configuration/ConfigManager.cpp:70-113 | which loads save depends only on the files at the configurations' own paths |
| `ManagerSpec.LoadAllReadsOriginalFiles` | Source/SML/Private/Configuration/ConfigManager.cpp:22-24 | loading a duplicate-free list of separator-free ids gives each the tree read from its file as it was before the list started, and logs exactly the saving ids in list order |
| `ManagerSpec.ReloadReadsEachFile` | Source/SML/Private/Configuration/ConfigManager.cpp:19-25 | with or without the flag, a reload gives every configuration the tree read from its own file and saves exactly the configurations whose load decides to save, in registration order |
| `ManagerSpec.LoadAllWritesFiles` | Source/SML/Private/Configuration/ConfigManager.cpp:22-24 | loading a duplicate-free list of separator-free ids keeps every file no listed id maps to; each id whose load decides to save and whose path is writable ends on disk as its loaded tree stamped with its mod's version; every other listed id's file is kept |
| `ManagerSpec.ReloadWritesFiles` | Source/SML/Private/Configuration/ConfigManager.cpp:19-25 | with or without the flag, after a reload each configuration whose load decides to save and whose path is writable is on disk as its reloaded, stamped tree, and every other file is as it was |
| `ManagerSpec.AddUnique` | Source/SML/Private/Configuration/ConfigManager.cpp:132 | the id is in the result, earlier entries keep their order, at most one entry is added and it is the id at the end, no duplicates are introduced |
| `ManagerSpec.Reinitialize` | Source/SML/Private/Configuration/ConfigManager.cpp:137-146 | the same struct types stay cached, each is the struct refilled from the entry's tree (same fields and kinds, tree values where the kinds match), everything else in the entry is unchanged, and the cache is fresh afterwards |
| `ManagerSpec.RefreshCache` | Source/SML/Private/Configuration/ConfigManager.cpp:137-146 | only the given entry's cache changes |
| `ManagerSpec.MarkDirty` | Source/SML/Private/Configuration/ConfigManager.cpp:130-135 | no file is written, the id is added uniquely to the dirty list, the only change to the registry is the refresh of that entry's cache, which is fresh afterwards; invariant kept |
| `ManagerSpec.ReinitializeIdempotent` | Source/SML/Private/Configuration/ConfigManager.cpp:137-146 | refreshing the cache twice is refreshing it once |
| `ManagerSpec.MarkDirtyIdempotent` | Source/SML/Private/Configuration/ConfigManager.cpp:130-135 | marking dirty twice is marking once |
| `ManagerSpec.MarkDirtyAppendsOnce` | Source/SML/Private/Configuration/ConfigManager.cpp:130-135 | afterwards the id is listed exactly once, earlier entries keep their order, a new id is appended and a listed one leaves the list as it was |
| `ManagerSpec.SaveAll` | Source/SML/Private/Configuration/ConfigManager.cpp:118-120 | saving a list logs exactly that list in order, touches no file outside the list's paths and leaves every unwritable path's file as it was |
| `ManagerSpec.Flush` | Source/SML/Private/Configuration/ConfigManager.cpp:116-122 | every pending id is saved once in list order, the list is empty afterwards, the registry is unchanged and the invariant kept; no file outside the pending paths and no unwritable path's file changes |
| `ManagerSpec.FlushEmptyWritesNothing` | Source/SML/Private/Configuration/ConfigManager.cpp:116-122 | with an empty dirty list a flush changes no file and logs no save |
| `ManagerSpec.SaveAllWritesEach` | Source/SML/Private/Configuration/ConfigManager.cpp:118-120 | for a duplicate-free list of separator-free ids, each writable file ends up holding its own configuration's stamped tree |
| `ManagerSpec.FlushWritesEachPending` | Source/SML/Private/Configuration/ConfigManager.cpp:116-122 | after a flush each pending configuration with a writable path is on disk as its current stamped tree |
| `ManagerSpec.MigratedRoot` | Source/SML/Private/Configuration/ConfigManager.cpp:186-198 | the migrated tree conforms to the new class's schema |
| `ManagerSpec.Replace` | Source/SML/Private/Configuration/ConfigManager.cpp:185-205 | the entry gets the new class and the migrated tree, and its cached structs are exactly those refilled from the migrated tree (same struct types, same fields, fresh), other entries and the dirty list are untouched, exactly one save is logged, and that save writes the migrated tree, stamped, to its own path when writable and nothing when not; invariant kept |
| `ManagerSpec.ReplaceSameSchemaKeepsValues` | Source/SML/Private/Configuration/ConfigManager.cpp:185-205 | replacing a class by one with the same schema keeps every value of the tree |
| `ManagerSpec.Register` | Source/SML/Private/Configuration/ConfigManager.cpp:226-249 | a new id gets exactly one new entry with the class, a default tree and an empty cache, with no save and other entries untouched; an existing id never fails and, whatever its compatibility, gets exactly `Replace` (migrated tree, fresh cache, one save) |
| `ManagerSpec.Fill` | Source/SML/Private/Configuration/ConfigManager.cpp:148-173 | hit: the cached struct is returned and nothing changes; miss: the caller's struct refilled from the tree (same fields and kinds, tree values where the kinds match) is returned and cached under its type, nothing else changes; a fresh cache stays fresh and yields a value reflecting the tree |
| `ManagerSpec.FillAfterMarkDirtyIsCurrent` | Source/SML/Private/Configuration/ConfigManager.cpp:130-173 | after marking dirty, a fill (hit or miss) never returns a field value older than the tree |
| `Manager.ConfigManager.SaveConfigurationInternal` | Source/SML/Private/Configuration/ConfigManager.cpp:27-61 | performs exactly `Save` |
| `Manager.ConfigManager.LoadConfigurationInternal` | Source/SML/Private/Configuration/ConfigManager.cpp:63-114 | performs exactly `Load`, following the chain file absent / read failure / parse failure / deserialize / version check |
| `Manager.ConfigManager.ReloadModConfigurations` | Source/SML/Private/Configuration/ConfigManager.cpp:19-25 | performs exactly `Reload`, one load per registered id in registration order |
| `Manager.ConfigManager.FlushPendingSaves` | Source/SML/Private/Configuration/ConfigManager.cpp:116-122 | performs exactly `Flush`: one save per pending id in order, then an empty list |
| `Manager.ConfigManager.MarkConfigurationDirty` | Source/SML/Private/Configuration/ConfigManager.cpp:130-135 | performs exactly `MarkDirty` |
| `Manager.ConfigManager.ReinitializeCachedStructs` | Source/SML/Private/Configuration/ConfigManager.cpp:137-146 | performs exactly `RefreshCache`, refilling every cached struct |
| `Manager.ConfigManager.FillConfigurationStruct` | Source/SML/Private/Configuration/ConfigManager.cpp:148-173 | returns the struct and leaves the state `Fill` describes |
| `Manager.ConfigManager.ReplaceConfigurationClass` | Source/SML/Private/Configuration/ConfigManager.cpp:185-205 | performs exactly `Replace` |
| `Manager.ConfigManager.RegisterModConfiguration` | Source/SML/Private/Configuration/ConfigManager.cpp:226-249 | performs exactly `Register` |

## Left out

- `Initialize`, `OnTimerManagerAvailable` (the 10-second timer and the pre-exit hook): engine delegate wiring; both only call `FlushPendingSaves`, which is modelled.
- `CreateConfigurationWidget`: UI widget construction.
- JSON text encoding and parsing, and the raw-format converter: a parsed file is `Text(json)`, text that does not parse is `Malformed`, and encoding then parsing is taken to give the object back.
- The value tree is flattened to one section of named scalars. The merge in `ValueTree` stands in for the bodies of `Serialize`, `Deserialize`, `FillConfigStructSelf` and `CreateNewValue`, which are not part of this model. Nested sections and collections are not represented.
- Whether the root value holder marks the configuration dirty while it is deserialized is not part of this model: a load changes the tree and nothing else.
- `LoadConfigurationInternal` takes the root value holder to load into as a separate parameter; the model always loads into the tree of the registered entry for the id and requires the id to be registered, as at its one caller, `ReloadModConfigurations`. A load into some other holder, or of an unregistered id without a save, is not modelled.
- `ReflectStruct` and `CopyWrappedStruct`: the caller's struct is passed in as a value and the filled struct is returned.
- Real file I/O: `FileExists` is membership in the file map, a failing `LoadFileToString` is `Unreadable`, a failing `SaveStringToFile` is a path in `env.unwritable`; `CreateDirectoryTree` and all logging are not modelled.
- The mod handler: a missing handler is modelled as no mod being loaded; versions are their strings.
- `FString` comparisons are case-insensitive in the engine; the model compares versions, categories and ids exactly.
- `FindChecked`/`checkf` assertion failures: the operations that look an id up require it to be registered, as their callers guarantee.
- The `GetMutableDefault` singleton: the manager is the one object the methods run on.
- Iteration over the registry map is modelled in registration order (entries are never removed).
- Concurrency: the manager is single-threaded; a mark arriving during a flush cannot happen.
- Floating-point values are modelled as mathematical reals (`FloatValue(real)`): rounding and precision are not represented.
- A parsed file's numbers are assumed to carry the kind (integer or float) that the schema declares for their property; JSON text does not distinguish them, so whether the engine's parser turns a file's `1` into a value that reaches a float property is not part of this model.
- `FilePathInjective`, `SaveAllWritesEach`, `FlushWritesEachPending`, `LoadAllReadsOriginalFiles`, `ReloadReadsEachFile`, `LoadAllWritesFiles` and `ReloadWritesFiles` assume mod references without `/`; with one, two ids can share a file, as `SlashedModReferenceCollides` shows.
