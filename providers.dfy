/**
  The two decision tables of DbProviderFactoryUtils: which factory, or which
  (factory type, assembly) pair, serves each provider type, and which
  provider-name strings stand for which provider type.
*/
module Providers {
  import opened Wrappers
  import opened ClrRuntime

  /**
    MazeFire.Enums.DataAccessProviderTypes. A C# enum variable can hold any
    integer, so the values without a name are kept as `Undefined`.
  */
  datatype ProviderType =
    | SqlServer
    | SqLite
    | MySql
    | PostgreSql
    | OleDb
    | SqlServerCompact
    | Undefined(code: int)

  /** `SqlClientFactory.Instance`, the factory that is always compiled in. */
  const SqlClientFactoryInstance := Factory("System.Data.SqlClient.SqlClientFactory")

  /** What the enum overload of GetDbProviderFactory does with a provider type. */
  datatype Plan =
    | BuiltIn(factory: Factory)
    | Dynamic(typeName: string, assemblyName: string)
    | Unsupported

  /** The providers this build serves: every other value raises NotSupported. */
  predicate Supported(t: ProviderType)
  {
    t == SqlServer || t == SqLite || t == MySql || t == PostgreSql
  }

  /**
    The enum table, in the order of its tests. Only SqlServer is served
    without reflection; each dynamically loaded factory lives in a namespace
    named after its assembly.
  */
  function PlanFor(t: ProviderType): (p: Plan)
    ensures p.BuiltIn? <==> t == SqlServer
    ensures p.BuiltIn? ==> p.factory == SqlClientFactoryInstance
    ensures p.Unsupported? <==> !Supported(t)
    ensures p.Dynamic? ==> p.assemblyName + "." <= p.typeName
  {
    if t == SqlServer then BuiltIn(SqlClientFactoryInstance)
    else if t == SqLite then Dynamic("Microsoft.Data.Sqlite.SqliteFactory", "Microsoft.Data.Sqlite")
    else if t == MySql then Dynamic("MySql.Data.MySqlClient.MySqlClientFactory", "MySql.Data")
    else if t == PostgreSql then Dynamic("Npgsql.NpgsqlFactory", "Npgsql")
    else Unsupported
  }

  /** `char.ToLower` on the ASCII letters; every other character is kept. */
  function LowerChar(c: char): (r: char)
    ensures !('A' <= r <= 'Z')
    ensures 'A' <= c <= 'Z' ==> r as int == c as int + 32
    ensures !('A' <= c <= 'Z') ==> r == c
  {
    if 'A' <= c <= 'Z' then (c as int + 32) as char else c
  }

  /** `string.ToLower`: the string lowered character by character. */
  function ToLower(s: string): (r: string)
    ensures |r| == |s|
    ensures forall i :: 0 <= i < |s| ==> r[i] == LowerChar(s[i])
  {
    seq(|s|, i requires 0 <= i < |s| => LowerChar(s[i]))
  }

  /**
    The string overload's alias table. The name is lowered once, but the
    lowered copy is used only in the "mysql.data" test; every other test
    compares the name as given. A null name fails on the call to ToLower.
  */
  function ProviderForName(providerName: Option<string>): (r: Result<ProviderType, Error>)
    ensures providerName.None? ==> r == Err(NullReference)
    ensures providerName.Some? && r.Err? ==> r.error == NotSupported
    ensures r.Ok? ==> Supported(r.value)
  {
    match providerName
    case None => Err(NullReference)
    case Some(name) =>
      var lowered := ToLower(name);
      if name == "system.data.sqlclient" then Ok(SqlServer)
      else if name == "system.data.sqlite" || name == "microsoft.data.sqlite" then Ok(SqLite)
      else if name == "mysql.data.mysqlclient" || lowered == "mysql.data" then Ok(MySql)
      else if name == "npgsql" then Ok(PostgreSql)
      else Err(NotSupported)
  }

  /** The names each provider answers to when compared exactly. */
  function ExactAliases(t: ProviderType): set<string>
  {
    match t
    case SqlServer => {"system.data.sqlclient"}
    case SqLite => {"system.data.sqlite", "microsoft.data.sqlite"}
    case MySql => {"mysql.data.mysqlclient"}
    case PostgreSql => {"npgsql"}
    case _ => {}
  }

  /** The alias relation as a table: exact names, plus "mysql.data" in any letter case. */
  predicate IsAlias(name: string, t: ProviderType)
  {
    name in ExactAliases(t) || (t == MySql && ToLower(name) == "mysql.data")
  }

  /** The if-chain of the string overload computes exactly the alias table. */
  lemma AliasTable(name: string, t: ProviderType)
    ensures ProviderForName(Some(name)) == Ok(t) <==> IsAlias(name, t)
  {
    var lowered := ToLower(name);
    if |name| != |"mysql.data"| {
      assert lowered != "mysql.data";
    }
  }

  /** Every name outside the alias table is rejected with NotSupported. */
  lemma UnknownNamesRejected(name: string)
    requires forall t: ProviderType :: !IsAlias(name, t)
    ensures ProviderForName(Some(name)) == Err(NotSupported)
  {
    match ProviderForName(Some(name))
    case Ok(t) =>
      AliasTable(name, t);
      assert false;
    case Err(_) =>
  }

  /** The "mysql.data" test ignores letter case: any spelling of it selects MySql. */
  lemma MySqlDataAnyCase(name: string)
    requires |name| == |"mysql.data"|
    requires forall i :: 0 <= i < |name| ==> LowerChar(name[i]) == "mysql.data"[i]
    ensures ProviderForName(Some(name)) == Ok(MySql)
  {
    assert ToLower(name) == "mysql.data";
  }

  /** The other tests are exact: upper-case spellings of those aliases are rejected. */
  lemma CaseSensitiveAliases()
    ensures ProviderForName(Some("MySql.Data")) == Ok(MySql)
    ensures ProviderForName(Some("Npgsql")) == Err(NotSupported)
    ensures ProviderForName(Some("System.Data.SqlClient")) == Err(NotSupported)
  {
    MySqlDataAnyCase("MySql.Data");
    InexactRejected("Npgsql");
    InexactRejected("System.Data.SqlClient");
  }

  /** Only the shorter MySql alias is compared on the lowered name. */
  lemma CaseSensitiveLongAliases()
    ensures ProviderForName(Some("MYSQL.DATA.MYSQLCLIENT")) == Err(NotSupported)
    ensures ProviderForName(Some("Microsoft.Data.Sqlite")) == Err(NotSupported)
  {
    InexactRejected("Microsoft.Data.Sqlite");
    InexactRejected("MYSQL.DATA.MYSQLCLIENT");
  }

  /** A name that is no exact alias and not ten characters long is rejected. */
  lemma InexactRejected(name: string)
    requires forall t: ProviderType :: name !in ExactAliases(t)
    requires |name| != |"mysql.data"|
    ensures ProviderForName(Some(name)) == Err(NotSupported)
  {
    assert name !in ExactAliases(SqlServer) && name !in ExactAliases(SqLite);
    assert name !in ExactAliases(MySql) && name !in ExactAliases(PostgreSql);
    assert |ToLower(name)| == |name|;
  }
}
