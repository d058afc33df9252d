# Settings search registry, modelled in Dafny

The Settings app keeps a process-wide table in `SearchIndexableResources`.
The table `sResMap` maps the fully qualified class name of a settings screen
to the `SearchIndexableResource` that the search indexer starts from. Each
record holds four things:

- a rank;
- the screen's preference XML, or `NO_DATA_RES_ID` when it has none;
- the class name;
- an icon.

A static initializer fills the table with 46 `put` calls, and then it is only
read, through `size()`, `getResourceByName(name)` and `values()`.

The model has four modules:

- `Wrappers` (`wrappers.dfy`): `Option`, the model of a nullable result.
- `AndroidResources` (`resources.dfy`): the `R.xml.*` and `R.drawable.*`
  resources the table names. The integer ids the build assigns to them are a
  parameter, `ResourceIds`.
- `Screens` (`screens.dfy`): the imported screen classes and the string
  `X.class.getName()` gives for each. The string is the package name, then
  `.`, then the simple name.
  - Packages are `com.android.settings` and its subpackages.
  - A package that supplies several screens gets its own datatype; a package
    that supplies one is a single constructor.
  - So the two `PrivacySettings` classes are `RootScreen.PrivacySettings` and
    `CyanogenModScreen.PrivacySettings`.
  - `ClassNameInjective` proves that no two screens share a name. Package
    segments are lower-case and contain no `.`, class names in the root
    package start with a capital, and simple names are distinct within each
    package.
- `Search` (`registry.dfy`): the registry itself.
  - Specification functions describe a sequence of puts (`AfterPuts`,
    `LastIndexOf`, `Names`).
  - `StaticRegistration(i)` is the table as written: the i-th put's screen,
    its XML (`NoData` or `Xml(r)`) and its icon. `Position` is its inverse.
  - `StaticTable` is the map the initializer leaves behind.
  - The class `SearchIndexableResources` keeps the map in the field `resMap`.
    Its constructor is the static initializer: `PutAll` calls `Put` once per
    configured entry, in source order.
  - The ghost flag `sealed` is set when the initializer is done. `Put` and
    `PutAll` require it unset: `sResMap` is private and no code after the
    static block puts into it.
  - `Size`, `GetResourceByName` and `Values` only read the map, so their
    frames guarantee they change nothing.

`Ranking.getRankForClassName` is outside this component. It is the parameter
`rankFor: string -> int`, fixed for the lifetime of the registry.

## Model

| member | source | states |
|---|---|---|
| Search.SearchIndexableResources.constructor | src/com/android/settings/search/SearchIndexableResources.java:78-401 | the static initializer leaves exactly `StaticTable(rankFor, ids)` in the map, with every record under its own class name and rank, and ends sealed, so no later call of `Put` or `PutAll` verifies |
| Search.SearchIndexableResources.PutAll | src/com/android/settings/search/SearchIndexableResources.java:78-401 | while the registry is unsealed, the puts of a sequence of entries, in order, leave `AfterPuts` of the old map, and keep key/record consistency |
| Search.SearchIndexableResources.Put | src/com/android/settings/search/SearchIndexableResources.java:79-84 | one put stores a record of the entry's rank, XML id, class name and icon id under its class name, replacing any previous record for that key, and keeps key/record consistency; it requires the registry unsealed, so no call of `Put` after the constructor verifies |
| Search.SearchIndexableResources.Size | src/com/android/settings/search/SearchIndexableResources.java:406-408 | size() is the number of distinct keys, and does not change the map |
| Search.SearchIndexableResources.GetResourceByName | src/com/android/settings/search/SearchIndexableResources.java:410-412 | getResourceByName returns `Lookup` of the map, the `HashMap.get` that the lookup lemmas describe: the stored record for a stored key, null otherwise; under the invariant, that record's class name is the key and its rank is the key's rank; it does not change the map |
| Search.SearchIndexableResources.Values | src/com/android/settings/search/SearchIndexableResources.java:414-416 | values() yields every stored record, only stored records, one per key (no class name twice), and as many as size(); it does not change the map |
| Search.QueriesAfterLoading | src/com/android/settings/search/SearchIndexableResources.java:406-416 | after class loading, size() is 46; WifiSettings is found with NO_DATA_RES_ID and the wireless icon; "nonexistent.Class" is not found; values() has size() records |
| Search.Record | src/com/android/settings/search/SearchIndexableResources.java:80-84 | definition of `new SearchIndexableResource(rank, xml, name, icon)`; no contract of its own, the fields a lookup finds are stated by `StaticTableLookup` and `RegistrationRecord` |
| Search.Lookup | src/com/android/settings/search/SearchIndexableResources.java:411 | definition of `HashMap.get`; no contract of its own, what it returns is stated by `AfterPutsLookup`, `PutReplacesOnlyItsKey`, `StaticTableLookup` and `StaticTableMiss` |
| Search.AfterPuts | src/com/android/settings/search/SearchIndexableResources.java:78-401 | the map after a sequence of puts, in order; it keeps every key the map had before |
| Search.LastIndexOf | src/com/android/settings/search/SearchIndexableResources.java:78-401 | finds the last put with a given key, or reports that no put uses the key |
| Search.Names | src/com/android/settings/search/SearchIndexableResources.java:78-401 | the keys of a sequence of puts are exactly the class names they carry |
| Search.AfterPutsLookup | src/com/android/settings/search/SearchIndexableResources.java:78-401 | a lookup after a sequence of puts returns the record of the last put with that key; a key no put uses keeps its previous value |
| Search.PutReplacesOnlyItsKey | src/com/android/settings/search/SearchIndexableResources.java:79-84 | a put changes the lookup of its own key and of no other key |
| Search.RepeatedPutOverwrites | src/com/android/settings/search/SearchIndexableResources.java:75-76 | putting a key twice in a row leaves the same map as putting only the second record (last write wins) |
| Search.AfterPutsKeys | src/com/android/settings/search/SearchIndexableResources.java:78-401 | puts add their own keys and no others |
| Search.AfterPutsConsistent | src/com/android/settings/search/SearchIndexableResources.java:78-401 | puts keep every record stored under its own class name with that name's rank |
| Search.DistinctNamesCount | src/com/android/settings/search/SearchIndexableResources.java:406-408 | puts with pairwise distinct keys produce one key per put |
| Search.AfterPutsSize | src/com/android/settings/search/SearchIndexableResources.java:406-408 | filling an empty map with distinct keys makes its size the number of puts |
| Search.DistinctLookup | src/com/android/settings/search/SearchIndexableResources.java:78-401 | with distinct keys, every put's record is found under its key |
| Search.StaticRegistration | src/com/android/settings/search/SearchIndexableResources.java:79-400 | the 46 puts as written, in source order: each put's screen class, its XML resource or `NO_DATA_RES_ID`, and its icon; no contract of its own, its properties are those of `Position` and `RegistrationPositions` |
| Search.Position | src/com/android/settings/search/SearchIndexableResources.java:78-401 | every imported screen class is registered by one of the 46 puts |
| Search.RegistrationPositions | src/com/android/settings/search/SearchIndexableResources.java:78-401 | the 46 puts register 46 different screen classes |
| Search.NoDataSentinel | src/com/android/settings/search/SearchIndexableResources.java:73 | when resource ids are compiler-assigned (never 0), a record's XML id is NO_DATA_RES_ID exactly when its screen was registered without XML |
| Search.Configuration | src/com/android/settings/search/SearchIndexableResources.java:78-401 | the static initializer puts 46 entries, and the i-th entry's key is the class name of the i-th registered screen |
| Search.StaticTable | src/com/android/settings/search/SearchIndexableResources.java:78-401 | the map the puts of the static initializer leave behind; no contract of its own, its properties are stated by `StaticTableSize`, `StaticTableConsistent`, `StaticTableKeys` and `StaticTableLookup` |
| Search.ConfigurationDistinct | src/com/android/settings/search/SearchIndexableResources.java:78-401 | no two puts of the static initializer use the same key |
| Search.StaticTableSize | src/com/android/settings/search/SearchIndexableResources.java:78-408 | once initialized, the registry holds 46 records |
| Search.StaticTableConsistent | src/com/android/settings/search/SearchIndexableResources.java:78-401 | once initialized, every record is stored under its own class name with that name's rank |
| Search.StaticTableKeys | src/com/android/settings/search/SearchIndexableResources.java:78-401 | every key of the initialized registry is the class name of a registered screen |
| Search.StaticTableLookup | src/com/android/settings/search/SearchIndexableResources.java:78-412 | looking up any registered screen's class name finds the record its put built: that name, its rank, its XML id (or NO_DATA_RES_ID) and its icon id |
| Search.RegistrationRecord | src/com/android/settings/search/SearchIndexableResources.java:78-412 | the class name of the i-th put's screen finds the record that put built: that name, its rank, its XML id (or NO_DATA_RES_ID) and its icon id |
| Search.StaticTableMiss | src/com/android/settings/search/SearchIndexableResources.java:410-412 | a name that is no registered screen's class name is not found (null, never a default record) |
| Search.OutsidePackageMiss | src/com/android/settings/search/SearchIndexableResources.java:410-412 | no name outside com.android.settings and its subpackages is found |
| Search.NonexistentClassMiss | src/com/android/settings/search/SearchIndexableResources.java:410-412 | "nonexistent.Class" is not found |
| Search.WifiSettingsRecord | src/com/android/settings/search/SearchIndexableResources.java:79-84 | "com.android.settings.wifi.WifiSettings" maps to its own rank, NO_DATA_RES_ID, its own name and the wireless icon |
| Search.AdvancedWifiSettingsRecord | src/com/android/settings/search/SearchIndexableResources.java:86-91 | AdvancedWifiSettings carries the id of R.xml.wifi_advanced_settings and the wireless icon |
| Search.BluetoothSettingsRecord | src/com/android/settings/search/SearchIndexableResources.java:100-105 | BluetoothSettings carries NO_DATA_RES_ID and the bluetooth icon |
| Search.PrivacySettingsKeysDiffer | src/com/android/settings/search/SearchIndexableResources.java:310-316 | `com.android.settings.PrivacySettings` and `com.android.settings.cyanogenmod.PrivacySettings` are different keys, so neither put overwrites the other |
| Search.PrivacySettingsRecord | src/com/android/settings/search/SearchIndexableResources.java:247-252 | `getResourceByName` of the root PrivacySettings' class name returns its rank, NO_DATA_RES_ID, its name and the backup icon |
| Search.CyanogenModPrivacySettingsRecord | src/com/android/settings/search/SearchIndexableResources.java:310-316 | `getResourceByName` of the cyanogenmod PrivacySettings' class name returns its rank, NO_DATA_RES_ID, its name and the privacy icon |
| Screens.ClassName | src/com/android/settings/search/SearchIndexableResources.java:21-66 | every imported screen's `getName()` string lies under "com.android.settings." |
| Screens.ClassNameInjective | src/com/android/settings/search/SearchIndexableResources.java:21-66 | distinct imported screen classes have distinct `getName()` strings |
| Screens.ClassNameIsRootRelative | src/com/android/settings/search/SearchIndexableResources.java:21-66 | every screen's class name is "com.android.settings." followed by its package-relative name |
| Screens.RelativeNameInjective | src/com/android/settings/search/SearchIndexableResources.java:21-66 | distinct screens have distinct names relative to com.android.settings |
| Screens.RootAndSubpackageDiffer | src/com/android/settings/search/SearchIndexableResources.java:21-66 | a class in com.android.settings and a class in one of its subpackages never share a name |
| Screens.SubpackageNamesAgree | src/com/android/settings/search/SearchIndexableResources.java:33-66 | two subpackage classes with the same relative name are in the same package with the same simple name |
| Screens.SimpleNameInjective | src/com/android/settings/search/SearchIndexableResources.java:21-66 | within one package, the imported simple names are distinct |
| Screens.RootNameInjective | src/com/android/settings/search/SearchIndexableResources.java:21-56 | the simple names of the com.android.settings screens are distinct |
| Screens.WifiNameInjective | src/com/android/settings/search/SearchIndexableResources.java:64-66 | the simple names of the com.android.settings.wifi screens are distinct |
| Screens.NotificationNameInjective | src/com/android/settings/search/SearchIndexableResources.java:55-58 | the simple names of the com.android.settings.notification screens are distinct |
| Screens.DeviceInfoNameInjective | src/com/android/settings/search/SearchIndexableResources.java:49-50 | the simple names of the com.android.settings.deviceinfo screens are distinct |
| Screens.RazerNameInjective | src/com/android/settings/search/SearchIndexableResources.java:35-61 | the simple names of the com.android.settings.razer screens are distinct |
| Screens.CyanogenModNameInjective | src/com/android/settings/search/SearchIndexableResources.java:310-316 | the simple names of the com.android.settings.cyanogenmod screens are distinct: the two imported at lines 47-48 and PrivacySettings, which lines 310-316 name by its qualified name |
| Screens.RootNameCapitalized | src/com/android/settings/search/SearchIndexableResources.java:21-56 | the simple names of the com.android.settings screens start with a capital letter |
| Screens.SubpackageIsSegment | src/com/android/settings/search/SearchIndexableResources.java:33-66 | each subpackage segment is non-empty, starts with a lower-case letter and contains no '.' |
| Screens.SubpackageInjective | src/com/android/settings/search/SearchIndexableResources.java:33-66 | different subpackages have different segments |
| Screens.FirstSegmentUnique | src/com/android/settings/search/SearchIndexableResources.java:33-66 | splitting a qualified name at its first '.' recovers the package segment and the rest |
| Screens.WifiSettingsClassName | src/com/android/settings/search/SearchIndexableResources.java:66 | WifiSettings.class.getName() is "com.android.settings.wifi.WifiSettings" |

## Left out

- Ranking: `Ranking.getRankForClassName` is not part of this model. Its result is the parameter `rankFor`, a total function. So the model has no ranking failure, and no initialization aborted by one.
- Resource ids: the integers the build assigns to `R.xml.*` and `R.drawable.*` are the parameter `ids`.
  - The model assumes nothing about `ids` except in `NoDataSentinel`.
  - `NoDataSentinel` requires that no XML id is 0, because the resource compiler never assigns 0.
  - A registered screen's lookup gives `NO_DATA_RES_ID` or `ids.xml(r)` whatever the ids are (`StaticTableLookup`).
- Reflection: `Class.getName()` and the loading of the screen classes are not modelled. The name is computed from the class's package and simple name, as the imports give them.
- `SearchIndexableResource`: only the four constructor arguments the registry passes are modelled, not the Android class's other fields.
- Class initialization:
  - The static table is modelled as an object built by its constructor. When the JVM runs the static block is not modelled.
  - Thread-safety and publication of the static block, and concurrent readers, are not modelled.
- The private constructor (lines 403-404) has no behaviour and is not modelled.
- `Values`:
  - The live `Collection` view `HashMap.values()` returns is not modelled, nor mutation through it.
  - The model returns a snapshot sequence.
  - The order of that sequence is left unspecified, like a `HashMap`'s.
- Object identity: `getResourceByName` and `values()` hand out references to the stored `SearchIndexableResource` objects, whose fields are public and mutable, so a caller can change a stored record. The model's records are immutable values, so it does not capture that aliasing.
- `getResourceByName(null)`: `HashMap.get(null)` returns null because no null key is stored. The model's `className` is a `string` and cannot be null, so that call has no counterpart.
- Field privacy: `resMap` and `sealed` are public Dafny fields, while `sResMap` is private in Java. The seal binds the class's own methods, not code that assigns the fields directly.
- `NO_DATA_RES_ID` is a non-final `public static` field. It is modelled as the constant 0 it holds while the table is built.
- Duplicate keys: the code overwrites silently with `HashMap.put`, and the model follows it (`RepeatedPutOverwrites`). A stricter initializer would reject duplicate keys. The model does not add that check, because the code has none. It proves the configured table has no duplicates (`ConfigurationDistinct`), so both readings agree on this table.
