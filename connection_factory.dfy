/**
  DbConnectionFactory: holds a provider type and a connection string, and
  creates a connection for that provider with that string set on it.
*/
module ConnectionFactory {
  import opened Wrappers
  import opened ClrRuntime
  import opened Providers
  import opened ProviderFactoryUtils

  /** A DbConnection as produced by `factory.CreateConnection()`: only its connection string is modelled. */
  class Connection {
    const factory: Factory
    var connectionString: string

    constructor (factory: Factory)
      ensures this.factory == factory && connectionString == ""
    {
      this.factory := factory;
      connectionString := "";
    }
  }

  /**
    What CreateDbConnection does: the factory whose connection it returns, or
    the exception it raises. A null string is rejected before any resolution;
    a null factory (an Instance that is not a DbProviderFactory) fails on
    `factory.CreateConnection()`.
  */
  function ConnectionOutcome(e: Env, t: ProviderType, connectionString: Option<string>)
    : Step<Result<Factory, Error>>
  {
    if connectionString.None? then Step(Err(MissingConnectionString), e, [])
    else
      var s := ProviderOutcome(e, t);
      match s.value
      case Err(err) => Step(Err(err), s.env, s.events)
      case Ok(None) => Step(Err(NullReference), s.env, s.events)
      case Ok(Some(f)) => Step(Ok(f), s.env, s.events)
  }

  /** `r` is the connection, or the exception, that `outcome` describes, carrying `connectionString`. */
  ghost predicate Delivers(r: Result<Connection, Error>, outcome: Result<Factory, Error>, connectionString: Option<string>)
    reads if r.Ok? then {r.value} else {}
  {
    && (r.Ok? <==> outcome.Ok?)
    && (r.Ok? ==> r.value.factory == outcome.value && connectionString == Some(r.value.connectionString))
    && (r.Err? ==> r.error == outcome.error)
  }

  class DbConnectionFactory {
    var connectionString: Option<string>
    var connectionType: ProviderType

    constructor (t: ProviderType, cs: Option<string>)
      ensures connectionType == t && connectionString == cs
    {
      connectionType := t;
      connectionString := cs;
    }

    /** HasConnectionString: true, or the exception for a null string; it never returns false. */
    function HasConnectionString(): (r: Result<bool, Error>)
      reads this
      ensures r.Ok? <==> connectionString.Some?
      ensures r.Ok? ==> r.value
      ensures r.Err? ==> r.error == MissingConnectionString
    {
      if connectionString.None? then Err(MissingConnectionString) else Ok(true)
    }

    /** CreateDbConnection: check the string, resolve the factory, create, set the string. */
    method CreateDbConnection(rt: Runtime) returns (r: Result<Connection, Error>)
      modifies rt
      ensures var s := ConnectionOutcome(old(rt.State()), connectionType, connectionString);
        rt.State() == s.env && rt.trace == old(rt.trace) + s.events && Delivers(r, s.value, connectionString)
      ensures r.Ok? ==> fresh(r.value)
    {
      var has := HasConnectionString();
      if has.Err? {
        return Err(has.error);
      }
      // has.value is always true, so the null return for a false check cannot happen.
      var factory := GetDbProviderFactory(rt, connectionType);
      if factory.Err? {
        return Err(factory.error);
      }
      if factory.value.None? {
        return Err(NullReference);
      }
      var connection := new Connection(factory.value.value);
      connection.connectionString := connectionString.value;
      return Ok(connection);
    }

    method CreateSqlConnection(rt: Runtime) returns (r: Result<Connection, Error>)
      modifies rt
      ensures var s := ConnectionOutcome(old(rt.State()), connectionType, connectionString);
        rt.State() == s.env && rt.trace == old(rt.trace) + s.events && Delivers(r, s.value, connectionString)
      ensures r.Ok? ==> fresh(r.value)
    {
      r := CreateDbConnection(rt);
    }

    method CreateSqLiteConnection(rt: Runtime) returns (r: Result<Connection, Error>)
      modifies rt
      ensures var s := ConnectionOutcome(old(rt.State()), connectionType, connectionString);
        rt.State() == s.env && rt.trace == old(rt.trace) + s.events && Delivers(r, s.value, connectionString)
      ensures r.Ok? ==> fresh(r.value)
    {
      r := CreateDbConnection(rt);
    }

    method CreateMySqlConnection(rt: Runtime) returns (r: Result<Connection, Error>)
      modifies rt
      ensures var s := ConnectionOutcome(old(rt.State()), connectionType, connectionString);
        rt.State() == s.env && rt.trace == old(rt.trace) + s.events && Delivers(r, s.value, connectionString)
      ensures r.Ok? ==> fresh(r.value)
    {
      r := CreateDbConnection(rt);
    }

    method CreatePostgreSqlConnection(rt: Runtime) returns (r: Result<Connection, Error>)
      modifies rt
      ensures var s := ConnectionOutcome(old(rt.State()), connectionType, connectionString);
        rt.State() == s.env && rt.trace == old(rt.trace) + s.events && Delivers(r, s.value, connectionString)
      ensures r.Ok? ==> fresh(r.value)
    {
      r := CreateDbConnection(rt);
    }

    method CreateOleDbConnection(rt: Runtime) returns (r: Result<Connection, Error>)
      modifies rt
      ensures var s := ConnectionOutcome(old(rt.State()), connectionType, connectionString);
        rt.State() == s.env && rt.trace == old(rt.trace) + s.events && Delivers(r, s.value, connectionString)
      ensures r.Ok? ==> fresh(r.value)
    {
      r := CreateDbConnection(rt);
    }
  }

  /** A null connection string is rejected before any lookup or load. */
  lemma NullStringRejectedFirst(e: Env, t: ProviderType)
    ensures ConnectionOutcome(e, t, None) == Step(Err(MissingConnectionString), e, [])
  {
  }

  /**
    Only null is rejected: an empty string, like any other, leads to the
    provider's resolution, and the string's contents never influence it.
  */
  lemma StringContentsIrrelevant(e: Env, t: ProviderType, cs1: string, cs2: string)
    ensures ConnectionOutcome(e, t, Some(cs1)) == ConnectionOutcome(e, t, Some(cs2))
    ensures ConnectionOutcome(e, t, Some("")).events == ProviderOutcome(e, t).events
  {
  }

  /**
    A connection is returned exactly when the provider resolves to a factory,
    and it comes from that factory.
  */
  lemma ConnectionFromResolvedFactory(e: Env, t: ProviderType, cs: string)
    ensures var c := ConnectionOutcome(e, t, Some(cs));
      var p := ProviderOutcome(e, t);
      && (c.value.Ok? <==> p.value.Ok? && p.value.value.Some?)
      && (c.value.Ok? ==> p.value == Ok(Some(c.value.value)))
      && c.env == p.env && c.events == p.events
  {
  }

  /** An SqlServer connection uses the built-in factory and never consults the runtime. */
  lemma SqlServerConnection(e: Env, cs: string)
    ensures ConnectionOutcome(e, SqlServer, Some(cs)) == Step(Ok(SqlClientFactoryInstance), e, [])
  {
  }

  /** OleDb and SqlServerCompact raise NotSupported, whatever the connection string, without consulting the runtime. */
  lemma UnsupportedConnection(e: Env, t: ProviderType, cs: string)
    requires t == OleDb || t == SqlServerCompact
    ensures ConnectionOutcome(e, t, Some(cs)) == Step(Err(NotSupported), e, [])
  {
  }
}
