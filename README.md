# DbConnectionFactory provider resolution, modelled in Dafny

MazeFire.ConnectorFactory turns a database provider type (SqlServer, SqLite,
MySql, PostgreSql, …) and a connection string into a `DbConnection`. SqlServer
uses the `SqlClientFactory` compiled into the program. SqLite, MySql and
PostgreSql are found by reflection; no reference to those drivers is needed
at build time. The code reads the static `Instance` member of a fixed factory
type. If that fails, it loads the driver assembly once, by name or else from
a file, and then tries the read again.

The model has five modules:

- `Wrappers`: `Option` (a possibly-null reference) and `Result` (a returned
  value or the kind of exception raised).
- `ClrRuntime`: the .NET runtime, modelled abstractly. Three fixed tables say
  what `Type.GetType`, `Assembly.Load` and `File.Exists`/`Assembly.LoadFrom`
  find. The class `Runtime` keeps the mutable, ordered list of loaded
  assemblies (`AppDomain.GetAssemblies`). It also keeps a ghost trace of every
  default type lookup, every load by name and every load from a path.
- `Providers`: the two pure decision tables. `PlanFor` maps the provider enum
  to the built-in factory, to a fixed (factory type, assembly) pair, or to
  NotSupported. `ProviderForName` maps provider-name strings to the enum.
- `ProviderFactoryUtils`: the static `DbProviderFactoryUtils` class. Its
  operations are methods on a `Runtime`. Each is proved against an
  "Outcome" specification function on value snapshots (`Env`). Such a
  function gives the result or exception, the runtime afterwards, and the
  runtime calls made, in order. Lemmas over these functions state the
  properties:
  - the search order;
  - at most one load;
  - a retry only after a successful load;
  - swallowed exceptions;
  - idempotence;
  - stability under later loads;
  - alias transparency.
- `ConnectionFactory`: the `DbConnectionFactory` class, its connection
  creation and the five `Create*Connection` entry points.

Some behaviour of the code is modelled exactly because it is easy to miss:

- The string overload lowers the name, but it uses the lowered copy only in
  the `"mysql.data"` test. Every other alias is compared case-sensitively
  (`MySqlDataAnyCase`, `CaseSensitiveAliases`).
- Only a null connection string is rejected. An empty one is accepted
  (`StringContentsIrrelevant`).
- All five `Create*Connection` methods use the provider type given to the
  constructor, whatever their names say.
- `Assembly.Load` failures are swallowed. `Assembly.LoadFrom` runs outside the
  `try` block, so an unloadable file raises to the caller (`LoadOrder`,
  `FactoryResult`).
- `instance as DbProviderFactory` gives null for an object of another type.
  That null factory then fails on `CreateConnection()` (NullReference).
- After a load, `GetTypeFromName` retries only `Type.GetType` and does not
  scan again. `Type.GetType` of a name that is not assembly-qualified looks
  only in the calling assembly and the core library, and a load does not
  change those. So the retry can never return more than the search before
  the load (`TypeIgnoresLoad`). The routine that loads drivers does find them:
  its retry goes through `GetStaticProperty`, which scans the loaded
  assemblies again (`FactoryFindsLoadedDriver`).
- There is no resolution cache. Every call resolves again. Resolving once
  more after a success gives the same factory with no load
  (`FactoryIdempotent`). Later loads do not change it either
  (`FactoryStable`).

## Model

| member | source | states |
|---|---|---|
| `Providers.PlanFor` | DbConnectionFactory.cs:108-133 | only SqlServer gets the built-in SqlClientFactory; exactly SqlServer, SqLite, MySql and PostgreSql are supported; each dynamic factory type lies in the namespace of its assembly |
| `Providers.ToLower` | DbConnectionFactory.cs:140 | the lowered name has the same length and is the name lowered character by character |
| `Providers.LowerChar` | DbConnectionFactory.cs:140 | lowering gives no upper-case ASCII letter, adds 32 to upper-case letters, keeps every other character |
| `Providers.ProviderForName` | DbConnectionFactory.cs:135-153 | a null name raises NullReference (ToLower on null); any other failure is NotSupported; every accepted name maps to a supported provider |
| `Providers.AliasTable` | DbConnectionFactory.cs:140-151 | the if-chain accepts a name for a provider exactly when the name is one of its exact aliases, or is "mysql.data" in any letter case for MySql |
| `Providers.UnknownNamesRejected` | DbConnectionFactory.cs:151 | every name outside the alias table raises NotSupported |
| `Providers.MySqlDataAnyCase` | DbConnectionFactory.cs:146 | any spelling of "mysql.data" that lowers to it selects MySql |
| `Providers.InexactRejected` | DbConnectionFactory.cs:142-151 | a name that is no exact alias and is not ten characters long is rejected |
| `Providers.CaseSensitiveAliases` | DbConnectionFactory.cs:140-148 | "MySql.Data" selects MySql, while "Npgsql" and "System.Data.SqlClient" are rejected |
| `Providers.CaseSensitiveLongAliases` | DbConnectionFactory.cs:146 | "MYSQL.DATA.MYSQLCLIENT" is rejected: the long MySql alias is compared as given |
| `ClrRuntime.DefaultType` | DbConnectionFactory.cs:224 | `Type.GetType(typeName, false)` finds a type exactly when the default scope defines the name, and then that type; otherwise null |
| `ClrRuntime.TypeIn` | DbConnectionFactory.cs:232 | `asm.GetType(typeName, false)` finds a type exactly when the assembly defines the name, and then that type; otherwise null |
| `ClrRuntime.WithLoaded` | DbConnectionFactory.cs:277-286 | loading an assembly makes it loaded, keeps the earlier assemblies in order as a prefix and adds at most one; an assembly already loaded leaves the runtime unchanged |
| `ClrRuntime.Runtime.GetType` | DbConnectionFactory.cs:224 | Type.GetType answers from the default scope and only records a lookup |
| `ClrRuntime.Runtime.GetAssemblies` | DbConnectionFactory.cs:228 | the loaded assemblies, in load order |
| `ClrRuntime.Runtime.Load` | DbConnectionFactory.cs:277 | Assembly.Load gives the named assembly and loads it, or raises FileNotFound and changes nothing |
| `ClrRuntime.Runtime.FileExists` | DbConnectionFactory.cs:284 | File.Exists holds exactly for the runtime's files |
| `ClrRuntime.Runtime.LoadFrom` | DbConnectionFactory.cs:286 | Assembly.LoadFrom loads the file's assembly, or raises FileNotFound or BadImageFormat and changes nothing |
| `ProviderFactoryUtils.GetStaticPropertyOfType` | DbConnectionFactory.cs:195-208 | a non-null result is the value the static member returns; a missing member or a read that throws gives null, never an error |
| `ProviderFactoryUtils.IsNullOrEmpty` | DbConnectionFactory.cs:241 | `string.IsNullOrEmpty` holds exactly for null and for the string of length zero |
| `ProviderFactoryUtils.AsFactory` | DbConnectionFactory.cs:168 | `instance as DbProviderFactory` is non-null exactly when the object is a factory, and then that factory |
| `ProviderFactoryUtils.FindInAssemblies` | DbConnectionFactory.cs:228-236 | the foreach with break returns the first match in load order |
| `ProviderFactoryUtils.LoadAssembly` | DbConnectionFactory.cs:272-291 | returns, loads and calls the runtime exactly as LoadOutcome says |
| `ProviderFactoryUtils.GetTypeFromName` | DbConnectionFactory.cs:222-253 | returns, loads and calls the runtime exactly as TypeOutcome says |
| `ProviderFactoryUtils.GetLoadedTypeFromName` | DbConnectionFactory.cs:261-264 | the one-argument overload returns the default-then-loaded search result and never loads |
| `ProviderFactoryUtils.GetStaticProperty` | DbConnectionFactory.cs:180-187 | an unresolved type gives null; otherwise the read of its static member; the runtime is unchanged |
| `ProviderFactoryUtils.GetDbProviderFactoryFromType` | DbConnectionFactory.cs:155-169 | returns, loads and calls the runtime exactly as FactoryOutcome says |
| `ProviderFactoryUtils.GetDbProviderFactory` | DbConnectionFactory.cs:108-133 | returns, loads and calls the runtime exactly as ProviderOutcome says |
| `ProviderFactoryUtils.GetDbProviderFactoryByName` | DbConnectionFactory.cs:135-153 | returns, loads and calls the runtime exactly as ProviderByNameOutcome says |
| `ProviderFactoryUtils.FirstMatchIsFirst` | DbConnectionFactory.cs:230-236 | the scan returns the type of the first assembly that defines the name |
| `ProviderFactoryUtils.FirstMatchNone` | DbConnectionFactory.cs:230-238 | the scan finds nothing exactly when no loaded assembly defines the name |
| `ProviderFactoryUtils.FirstMatchAppend` | DbConnectionFactory.cs:228-236 | assemblies loaded later never shadow a type an earlier one defines |
| `ProviderFactoryUtils.TypeSearchOrder` | DbConnectionFactory.cs:224-238 | without a default-scope hit, the search yields the first loaded assembly's type |
| `ProviderFactoryUtils.LoadOrder` | DbConnectionFactory.cs:272-291 | exactly one load by name, first; a file load only when that failed and the file exists; null when neither applies; a file load returns the file's assembly; only a bad file raises, leaving the runtime unchanged |
| `ProviderFactoryUtils.TypeLoadsOnlyWithName` | DbConnectionFactory.cs:241-264 | GetTypeFromName loads once exactly when nothing was found and the assembly name is neither null nor empty; with a null name it only searches |
| `ProviderFactoryUtils.TypeIgnoresLoad` | DbConnectionFactory.cs:241-249 | after a load only the default scope is retried, so any result equals the search before the load |
| `ProviderFactoryUtils.FactoryHitDoesNotLoad` | DbConnectionFactory.cs:157-163 | a non-null first Instance read is the result, with one lookup, no load and no change to the runtime |
| `ProviderFactoryUtils.FactoryLoadsAtMostOnce` | DbConnectionFactory.cs:155-163 | no load after a hit, exactly one after a miss; a second lookup only when the load returned an assembly |
| `ProviderFactoryUtils.FactoryResult` | DbConnectionFactory.cs:165-168 | success exactly when the Instance read in the final runtime is non-null, and then its cast; failure is InvalidOperation, or BadImageFormat from the file load |
| `ProviderFactoryUtils.FactoryFindsLoadedDriver` | DbConnectionFactory.cs:157-168 | when only the assembly loaded by name defines the factory type, the retry returns its Instance after one lookup, one load and a second lookup |
| `ProviderFactoryUtils.FactoryIdempotent` | DbConnectionFactory.cs:155-168 | resolving again after a success gives the same factory without a load |
| `ProviderFactoryUtils.FactoryStable` | DbConnectionFactory.cs:155-168 | after a success, later assembly loads change neither the factory nor the need to load |
| `ProviderFactoryUtils.BuiltInTouchesNothing` | DbConnectionFactory.cs:110-111 | SqlServer gets SqlClientFactory.Instance with no lookup and no load |
| `ProviderFactoryUtils.DynamicProviders` | DbConnectionFactory.cs:113-124 | SqLite, MySql and PostgreSql go through the load-and-retry routine with their fixed type and assembly names |
| `ProviderFactoryUtils.UnsupportedTouchesNothing` | DbConnectionFactory.cs:125-132 | every other provider raises NotSupported without touching the runtime |
| `ProviderFactoryUtils.AliasTransparency` | DbConnectionFactory.cs:142-149 | an alias behaves exactly like its provider type |
| `ProviderFactoryUtils.UnknownNameTouchesNothing` | DbConnectionFactory.cs:151 | an unknown name raises NotSupported without touching the runtime |
| `ProviderFactoryUtils.PostgreSqlUnavailable` | DbConnectionFactory.cs:123-124 | with Npgsql nowhere, PostgreSql makes one lookup and one load attempt by name, then raises InvalidOperation |
| `ConnectionFactory.Connection.constructor` | DbConnectionFactory.cs:98 | a new connection from the given factory, with an empty connection string |
| `ConnectionFactory.DbConnectionFactory.constructor` | DbConnectionFactory.cs:40-44 | stores the provider type and the connection string as given |
| `ConnectionFactory.DbConnectionFactory.HasConnectionString` | DbConnectionFactory.cs:47-55 | true exactly when the string is not null; otherwise the MissingConnectionString exception; it never returns false |
| `ConnectionFactory.DbConnectionFactory.CreateDbConnection` | DbConnectionFactory.cs:91-103 | a fresh connection from the resolved factory carrying the stored string, or the exception; runtime changes and calls as ConnectionOutcome says |
| `ConnectionFactory.DbConnectionFactory.CreateSqlConnection` | DbConnectionFactory.cs:57-60 | same contract as CreateDbConnection, for the constructor's provider type |
| `ConnectionFactory.DbConnectionFactory.CreateSqLiteConnection` | DbConnectionFactory.cs:62-65 | same contract as CreateDbConnection, for the constructor's provider type |
| `ConnectionFactory.DbConnectionFactory.CreateMySqlConnection` | DbConnectionFactory.cs:67-70 | same contract as CreateDbConnection, for the constructor's provider type |
| `ConnectionFactory.DbConnectionFactory.CreatePostgreSqlConnection` | DbConnectionFactory.cs:72-75 | same contract as CreateDbConnection, for the constructor's provider type |
| `ConnectionFactory.DbConnectionFactory.CreateOleDbConnection` | DbConnectionFactory.cs:77-80 | same contract as CreateDbConnection, for the constructor's provider type |
| `ConnectionFactory.NullStringRejectedFirst` | DbConnectionFactory.cs:94 | a null string raises before any lookup or load |
| `ConnectionFactory.StringContentsIrrelevant` | DbConnectionFactory.cs:49 | only null is rejected: an empty or any other string leads to the same resolution |
| `ConnectionFactory.ConnectionFromResolvedFactory` | DbConnectionFactory.cs:96-99 | a connection is returned exactly when the provider resolves to a non-null factory, and it comes from that factory |
| `ConnectionFactory.SqlServerConnection` | DbConnectionFactory.cs:96-99 | an SqlServer connection comes from SqlClientFactory without consulting the runtime |
| `ConnectionFactory.UnsupportedConnection` | DbConnectionFactory.cs:96 | OleDb and SqlServerCompact raise NotSupported without consulting the runtime |

## Left out

- Real reflection and file-system calls: `Type.GetType`, `Assembly.GetType`,
  `InvokeMember`, `Assembly.Load`/`LoadFrom`, `File.Exists` and
  `AppDomain.GetAssemblies` are modelled only by the tables of
  `ClrRuntime.Runtime`. The default scope of `Type.GetType` is fixed.
  Assembly-qualified type names, which `Type.GetType` would load by itself,
  are not modelled; the code uses none.
- The `#if NETFULL` branches are not modelled: the OleDb factory,
  SqlServerCompact through `DbProviderFactories.GetFactory`,
  `System.Data.SQLite` and the full-framework string overload. They are not
  part of the default build.
- Exception messages are not modelled. Their format strings have no
  placeholders, so only the kind of exception is kept.
- `Providers.ToLower`: lowers only the ASCII letters. Culture-sensitive
  lowering of other characters (for example the Turkish dotted I) is not
  modelled. The lowered name feeds only the `"mysql.data"` test, and there
  this loses no behaviour. Outside A-Z, only U+0130 and U+212A lower into
  ASCII, and they become `i` and `k`; neither letter occurs in
  `"mysql.data"`. The Turkish lowering of `I` to `ı` cannot matter either.
- The `DbConnection` and `DbProviderFactory` objects themselves are left
  out. A factory is an opaque token. A connection holds only its factory and
  its connection string. A provider's own check of the string, and a
  `CreateConnection()` that returns null, are left out.
- The `return null` of `CreateDbConnection` when the check fails is not
  modelled. `HasConnectionString` never returns false, so that branch cannot
  run.
- The `MazeFire.Enums.DataAccessProviderTypes` source file is not part of
  this model. `ProviderType` lists the names the code uses. Any other integer
  value becomes `Undefined`.
- Concurrency is left out. The code has no cache and no synchronisation:
  every call resolves again, sequentially.
