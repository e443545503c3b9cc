/**
  DbProviderFactoryUtils: the three GetDbProviderFactory overloads and the
  reflection utilities beneath them (static property read, type search,
  assembly loading).

  Each operation that touches the runtime is a method over a
  `ClrRuntime.Runtime`, proved against a specification function on `Env`
  snapshots: an "Outcome" function giving the value returned (or the
  exception raised), the runtime afterwards, and the runtime calls made, in
  order. The lemmas further down state the properties of the resolution
  algorithm on those functions.
*/
module ProviderFactoryUtils {
  import opened Wrappers
  import opened ClrRuntime
  import opened Providers

  /** A value together with the runtime it leaves and the calls it made. */
  datatype Step<T> = Step(value: T, env: Env, events: seq<Event>)

  // ---------------------------------------------------------------------
  // Specification functions
  // ---------------------------------------------------------------------

  /** The type the first assembly defining `typeName` gives, in load order. */
  function FirstMatch(assemblies: seq<Assembly>, typeName: string): Option<ClrType>
    decreases |assemblies|
  {
    if assemblies == [] then None
    else if TypeIn(assemblies[0], typeName).Some? then TypeIn(assemblies[0], typeName)
    else FirstMatch(assemblies[1..], typeName)
  }

  /** The search of GetTypeFromName without loading: default scope, then loaded assemblies. */
  function TypeSearch(e: Env, typeName: string): Option<ClrType>
  {
    if DefaultType(e, typeName).Some? then DefaultType(e, typeName)
    else FirstMatch(e.loaded, typeName)
  }

  /** `string.IsNullOrEmpty`. */
  predicate IsNullOrEmpty(s: Option<string>)
    ensures IsNullOrEmpty(s) <==> s.None? || |s.value| == 0
  {
    s.None? || s.value == ""
  }

  /** What LoadAssembly does: by name, else from a file of that name if one exists. */
  function LoadOutcome(e: Env, assemblyName: string): Step<Result<Option<Assembly>, Error>>
  {
    var byName := [Event(NameLoad, assemblyName)];
    if assemblyName in e.byName then
      Step(Ok(Some(e.byName[assemblyName])), WithLoaded(e, e.byName[assemblyName]), byName)
    else if assemblyName !in e.files then
      Step(Ok(None), e, byName)
    else
      match e.files[assemblyName]
      case Image(a) => Step(Ok(Some(a)), WithLoaded(e, a), byName + [Event(PathLoad, assemblyName)])
      case BadImage => Step(Err(BadImageFormat), e, byName + [Event(PathLoad, assemblyName)])
  }

  /** What GetTypeFromName(typeName, assemblyName) does. */
  function TypeOutcome(e: Env, typeName: string, assemblyName: Option<string>)
    : Step<Result<Option<ClrType>, Error>>
  {
    var lookup := [Event(Lookup, typeName)];
    if TypeSearch(e, typeName).Some? then Step(Ok(TypeSearch(e, typeName)), e, lookup)
    else if IsNullOrEmpty(assemblyName) then Step(Ok(None), e, lookup)
    else
      var l := LoadOutcome(e, assemblyName.value);
      match l.value
      case Err(err) => Step(Err(err), l.env, lookup + l.events)
      case Ok(None) => Step(Ok(None), l.env, lookup + l.events)
      case Ok(Some(_)) => Step(Ok(DefaultType(l.env, typeName)), l.env, lookup + l.events + lookup)
  }

  /**
    GetStaticProperty(Type, property): `InvokeMember` on a public static field
    or property. A missing member and a read that throws both give null: the
    exception is swallowed.
  */
  function GetStaticPropertyOfType(t: ClrType, property: string): (v: Value)
    ensures v != Null ==> property in t.statics && t.statics[property] == Returns(v)
    ensures property in t.statics && t.statics[property].Returns? ==> v == t.statics[property].value
    ensures property !in t.statics || t.statics[property].Throws? ==> v == Null
  {
    if property in t.statics then
      match t.statics[property]
      case Returns(x) => x
      case Throws => Null
    else Null
  }

  /** What GetStaticProperty(typeName, property) does: search without loading, then read. */
  function StaticPropertyOutcome(e: Env, typeName: string, property: string): Step<Value>
  {
    var t := TypeSearch(e, typeName);
    Step(if t.None? then Null else GetStaticPropertyOfType(t.value, property), e, [Event(Lookup, typeName)])
  }

  /** `instance as DbProviderFactory`: null unless the object is a factory. */
  function AsFactory(v: Value): (f: Option<Factory>)
    ensures f.Some? <==> v.FactoryObject?
    ensures f.Some? ==> v == FactoryObject(f.value)
  {
    if v.FactoryObject? then Some(v.factory) else None
  }

  /** What GetDbProviderFactory(typeName, assemblyName) does: look up, load once, retry. */
  function FactoryOutcome(e: Env, typeName: string, assemblyName: string)
    : Step<Result<Option<Factory>, Error>>
  {
    var first := StaticPropertyOutcome(e, typeName, "Instance");
    if first.value != Null then Step(Ok(AsFactory(first.value)), e, first.events)
    else
      var l := LoadOutcome(e, assemblyName);
      match l.value
      case Err(err) => Step(Err(err), l.env, first.events + l.events)
      case Ok(None) => Step(Err(InvalidOperation), l.env, first.events + l.events)
      case Ok(Some(_)) =>
        var second := StaticPropertyOutcome(l.env, typeName, "Instance");
        Step(if second.value == Null then Err(InvalidOperation) else Ok(AsFactory(second.value)),
             l.env, first.events + l.events + second.events)
  }

  /** What GetDbProviderFactory(type) does. */
  function ProviderOutcome(e: Env, t: ProviderType): Step<Result<Option<Factory>, Error>>
  {
    match PlanFor(t)
    case BuiltIn(f) => Step(Ok(Some(f)), e, [])
    case Dynamic(typeName, assemblyName) => FactoryOutcome(e, typeName, assemblyName)
    case Unsupported => Step(Err(NotSupported), e, [])
  }

  /** What GetDbProviderFactory(providerName) does. */
  function ProviderByNameOutcome(e: Env, providerName: Option<string>)
    : Step<Result<Option<Factory>, Error>>
  {
    match ProviderForName(providerName)
    case Ok(t) => ProviderOutcome(e, t)
    case Err(err) => Step(Err(err), e, [])
  }

  // ---------------------------------------------------------------------
  // The operations
  // ---------------------------------------------------------------------

  /** The foreach over the loaded assemblies in GetTypeFromName, stopping at the first match. */
  method FindInAssemblies(assemblies: seq<Assembly>, typeName: string) returns (t: Option<ClrType>)
    ensures t == FirstMatch(assemblies, typeName)
  {
    t := None;
    var i := 0;
    while i < |assemblies|
      invariant 0 <= i <= |assemblies|
      invariant t.None?
      invariant FirstMatch(assemblies, typeName) == FirstMatch(assemblies[i..], typeName)
    {
      assert assemblies[i..][1..] == assemblies[i + 1..];
      t := TypeIn(assemblies[i], typeName);
      if t.Some? {
        break;
      }
      i := i + 1;
    }
  }

  /** LoadAssembly: Assembly.Load with its failure swallowed, then Assembly.LoadFrom. */
  method LoadAssembly(rt: Runtime, assemblyName: string) returns (r: Result<Option<Assembly>, Error>)
    modifies rt
    ensures var s := LoadOutcome(old(rt.State()), assemblyName);
      r == s.value && rt.State() == s.env && rt.trace == old(rt.trace) + s.events
  {
    var assembly: Option<Assembly> := None;
    var attempt := rt.Load(assemblyName);
    if attempt.Ok? {
      assembly := Some(attempt.value);
    }
    if assembly.Some? {
      return Ok(assembly);
    }
    if rt.FileExists(assemblyName) {
      // LoadFrom is outside the try block: its exception reaches the caller.
      var fromFile := rt.LoadFrom(assemblyName);
      if fromFile.Err? {
        return Err(fromFile.error);
      }
      return Ok(Some(fromFile.value));
    }
    return Ok(None);
  }

  /** GetTypeFromName(typeName, assemblyName). */
  method GetTypeFromName(rt: Runtime, typeName: string, assemblyName: Option<string>)
    returns (r: Result<Option<ClrType>, Error>)
    modifies rt
    ensures var s := TypeOutcome(old(rt.State()), typeName, assemblyName);
      r == s.value && rt.State() == s.env && rt.trace == old(rt.trace) + s.events
  {
    var t := rt.GetType(typeName);
    if t.Some? {
      return Ok(t);
    }
    var assemblies := rt.GetAssemblies();
    t := FindInAssemblies(assemblies, typeName);
    if t.Some? {
      return Ok(t);
    }
    if !IsNullOrEmpty(assemblyName) {
      var a := LoadAssembly(rt, assemblyName.value);
      if a.Err? {
        return Err(a.error);
      }
      if a.value.Some? {
        t := rt.GetType(typeName);
        if t.Some? {
          return Ok(t);
        }
      }
    }
    return Ok(None);
  }

  /** GetTypeFromName(typeName): the overload that passes a null assembly name. */
  method GetLoadedTypeFromName(rt: Runtime, typeName: string) returns (t: Option<ClrType>)
    modifies rt
    ensures t == TypeSearch(old(rt.State()), typeName)
    ensures rt.State() == old(rt.State())
    ensures rt.trace == old(rt.trace) + [Event(Lookup, typeName)]
  {
    var r := GetTypeFromName(rt, typeName, None);
    t := r.value;
  }

  /** GetStaticProperty(typeName, property). */
  method GetStaticProperty(rt: Runtime, typeName: string, property: string) returns (v: Value)
    modifies rt
    ensures var s := StaticPropertyOutcome(old(rt.State()), typeName, property);
      v == s.value && rt.State() == s.env && rt.trace == old(rt.trace) + s.events
  {
    var t := GetLoadedTypeFromName(rt, typeName);
    if t.None? {
      return Null;
    }
    return GetStaticPropertyOfType(t.value, property);
  }

  /** GetDbProviderFactory(dbProviderFactoryTypename, assemblyName). */
  method GetDbProviderFactoryFromType(rt: Runtime, typeName: string, assemblyName: string)
    returns (r: Result<Option<Factory>, Error>)
    modifies rt
    ensures var s := FactoryOutcome(old(rt.State()), typeName, assemblyName);
      r == s.value && rt.State() == s.env && rt.trace == old(rt.trace) + s.events
  {
    var instance := GetStaticProperty(rt, typeName, "Instance");
    if instance == Null {
      var a := LoadAssembly(rt, assemblyName);
      if a.Err? {
        return Err(a.error);
      }
      if a.value.Some? {
        instance := GetStaticProperty(rt, typeName, "Instance");
      }
    }
    if instance == Null {
      return Err(InvalidOperation);
    }
    return Ok(AsFactory(instance));
  }

  /** GetDbProviderFactory(type). */
  method GetDbProviderFactory(rt: Runtime, t: ProviderType) returns (r: Result<Option<Factory>, Error>)
    modifies rt
    ensures var s := ProviderOutcome(old(rt.State()), t);
      r == s.value && rt.State() == s.env && rt.trace == old(rt.trace) + s.events
  {
    match PlanFor(t)
    case BuiltIn(f) =>
      return Ok(Some(f));
    case Dynamic(typeName, assemblyName) =>
      r := GetDbProviderFactoryFromType(rt, typeName, assemblyName);
    case Unsupported =>
      return Err(NotSupported);
  }

  /** GetDbProviderFactory(providerName). */
  method GetDbProviderFactoryByName(rt: Runtime, providerName: Option<string>)
    returns (r: Result<Option<Factory>, Error>)
    modifies rt
    ensures var s := ProviderByNameOutcome(old(rt.State()), providerName);
      r == s.value && rt.State() == s.env && rt.trace == old(rt.trace) + s.events
  {
    var p := ProviderForName(providerName);
    if p.Err? {
      return Err(p.error);
    }
    r := GetDbProviderFactory(rt, p.value);
  }

  // ---------------------------------------------------------------------
  // Properties
  // ---------------------------------------------------------------------

  /** The scan returns the type of the first assembly that defines the name. */
  lemma {:induction false} FirstMatchIsFirst(assemblies: seq<Assembly>, typeName: string, i: nat)
    requires i < |assemblies| && typeName in assemblies[i].types
    requires forall j :: 0 <= j < i ==> typeName !in assemblies[j].types
    ensures FirstMatch(assemblies, typeName) == Some(assemblies[i].types[typeName])
  {
    if i > 0 {
      assert typeName !in assemblies[0].types;
      FirstMatchIsFirst(assemblies[1..], typeName, i - 1);
    }
  }

  /** The scan finds nothing exactly when no loaded assembly defines the name. */
  lemma {:induction false} FirstMatchNone(assemblies: seq<Assembly>, typeName: string)
    ensures FirstMatch(assemblies, typeName).None?
        <==> forall i :: 0 <= i < |assemblies| ==> typeName !in assemblies[i].types
  {
    if assemblies != [] {
      FirstMatchNone(assemblies[1..], typeName);
      assert forall i :: 1 <= i < |assemblies| ==> assemblies[i] == assemblies[1..][i - 1];
    }
  }

  /** Assemblies loaded later never shadow a type an earlier assembly defines. */
  lemma {:induction false} FirstMatchAppend(a: seq<Assembly>, b: seq<Assembly>, typeName: string)
    ensures FirstMatch(a + b, typeName)
         == if FirstMatch(a, typeName).Some? then FirstMatch(a, typeName) else FirstMatch(b, typeName)
  {
    if a == [] {
      assert a + b == b;
    } else {
      assert (a + b)[1..] == a[1..] + b;
      FirstMatchAppend(a[1..], b, typeName);
    }
  }

  /**
    Search order: the default scope wins; otherwise the first loaded assembly
    that defines the type, in load order.
  */
  lemma TypeSearchOrder(e: Env, typeName: string, i: nat)
    requires DefaultType(e, typeName).None?
    requires i < |e.loaded| && typeName in e.loaded[i].types
    requires forall j :: 0 <= j < i ==> typeName !in e.loaded[j].types
    ensures TypeSearch(e, typeName) == Some(e.loaded[i].types[typeName])
  {
    FirstMatchIsFirst(e.loaded, typeName, i);
  }

  /**
    LoadAssembly tries the name first, and the file only when the name load
    failed and the file exists; it fails silently (null) when neither applies.
    Only an unloadable file raises.
  */
  lemma LoadOrder(e: Env, assemblyName: string)
    ensures var s := LoadOutcome(e, assemblyName);
      && Count(s.events, NameLoad) == 1
      && s.events[0] == Event(NameLoad, assemblyName)
      && Count(s.events, PathLoad) == (if assemblyName !in e.byName && assemblyName in e.files then 1 else 0)
      && (assemblyName in e.byName ==> s.value == Ok(Some(e.byName[assemblyName])))
      && (assemblyName !in e.byName && assemblyName in e.files && e.files[assemblyName].Image?
          ==> s.value == Ok(Some(e.files[assemblyName].assembly)))
      && (s.value == Ok(None) <==> assemblyName !in e.byName && assemblyName !in e.files)
      && (s.value.Err? ==> s.value.error == BadImageFormat && s.env == e)
      && (s.value.Ok? && s.value.value.Some? ==> s.env == WithLoaded(e, s.value.value.value))
      && (s.value == Ok(None) ==> s.env == e)
  {
    var byName := [Event(NameLoad, assemblyName)];
    assert byName[1..] == [];
    assert Count(byName, NameLoad) == 1 && Count(byName, PathLoad) == 0;
    CountAppend(byName, [Event(PathLoad, assemblyName)], NameLoad);
    CountAppend(byName, [Event(PathLoad, assemblyName)], PathLoad);
  }

  /**
    GetTypeFromName loads only for a non-empty assembly name, so the
    one-argument overload never loads.
  */
  lemma TypeLoadsOnlyWithName(e: Env, typeName: string, assemblyName: Option<string>)
    ensures var s := TypeOutcome(e, typeName, assemblyName);
      Count(s.events, NameLoad) == (if TypeSearch(e, typeName).None? && !IsNullOrEmpty(assemblyName) then 1 else 0)
    ensures IsNullOrEmpty(assemblyName) ==> TypeOutcome(e, typeName, assemblyName) == Step(Ok(TypeSearch(e, typeName)), e, [Event(Lookup, typeName)])
  {
    var lookup := [Event(Lookup, typeName)];
    assert Count(lookup, NameLoad) == 0;
    if TypeSearch(e, typeName).None? && !IsNullOrEmpty(assemblyName) {
      var l := LoadOutcome(e, assemblyName.value);
      LoadOrder(e, assemblyName.value);
      CountAppend(lookup, l.events, NameLoad);
      CountAppend(lookup + l.events, lookup, NameLoad);
    }
  }

  /**
    After a load GetTypeFromName retries only the default scope, which a load
    does not change, and does not scan the new assembly: whatever it returns
    is what the search before the load gave.
  */
  lemma TypeIgnoresLoad(e: Env, typeName: string, assemblyName: Option<string>)
    ensures var s := TypeOutcome(e, typeName, assemblyName);
      s.value.Ok? ==> s.value.value == TypeSearch(e, typeName)
  {
  }

  /** A first lookup that yields an instance means no load and no second lookup. */
  lemma FactoryHitDoesNotLoad(e: Env, typeName: string, assemblyName: string)
    requires StaticPropertyOutcome(e, typeName, "Instance").value != Null
    ensures FactoryOutcome(e, typeName, assemblyName)
         == Step(Ok(AsFactory(StaticPropertyOutcome(e, typeName, "Instance").value)), e, [Event(Lookup, typeName)])
  {
  }

  /**
    The load-and-retry routine loads at most once: never when the first lookup
    yields an instance, exactly once otherwise; and it looks the type up a
    second time only when that load returned an assembly.
  */
  lemma FactoryLoadsAtMostOnce(e: Env, typeName: string, assemblyName: string)
    ensures var s := FactoryOutcome(e, typeName, assemblyName);
      var hit := StaticPropertyOutcome(e, typeName, "Instance").value != Null;
      var loadedOne := LoadOutcome(e, assemblyName).value.Ok? && LoadOutcome(e, assemblyName).value.value.Some?;
      && Count(s.events, NameLoad) == (if hit then 0 else 1)
      && Count(s.events, Lookup) == (if !hit && loadedOne then 2 else 1)
  {
    var first := StaticPropertyOutcome(e, typeName, "Instance");
    assert Count(first.events, NameLoad) == 0 && Count(first.events, Lookup) == 1;
    if first.value == Null {
      var l := LoadOutcome(e, assemblyName);
      LoadOrder(e, assemblyName);
      assert Count(l.events, Lookup) == 0 by {
        if |l.events| == 2 {
          assert l.events == [Event(NameLoad, assemblyName)] + [Event(PathLoad, assemblyName)];
          CountAppend([Event(NameLoad, assemblyName)], [Event(PathLoad, assemblyName)], Lookup);
        }
      }
      CountAppend(first.events, l.events, NameLoad);
      CountAppend(first.events, l.events, Lookup);
      if l.value.Ok? && l.value.value.Some? {
        var second := StaticPropertyOutcome(l.env, typeName, "Instance");
        CountAppend(first.events + l.events, second.events, NameLoad);
        CountAppend(first.events + l.events, second.events, Lookup);
      }
    }
  }

  /**
    The routine succeeds exactly when the final runtime's type search yields
    an Instance, and then with that instance; otherwise it raises
    InvalidOperation, or the exception of an unloadable assembly file.
  */
  lemma FactoryResult(e: Env, typeName: string, assemblyName: string)
    ensures var s := FactoryOutcome(e, typeName, assemblyName);
      && (s.value.Ok? <==> StaticPropertyOutcome(s.env, typeName, "Instance").value != Null)
      && (s.value.Ok? ==> s.value.value == AsFactory(StaticPropertyOutcome(s.env, typeName, "Instance").value))
      && (s.value.Err? ==> s.value.error == InvalidOperation || s.value.error == BadImageFormat)
      && ((s.value.Err? && LoadOutcome(e, assemblyName).value.Ok?) ==> s.value.error == InvalidOperation)
  {
  }

  /**
    The retry finds a driver that only the load brings in: when nothing
    defines the factory type yet and loading the assembly by name adds one
    that does, with a readable Instance, the routine returns that instance
    after one lookup, one load and a second lookup.
  */
  lemma FactoryFindsLoadedDriver(e: Env, typeName: string, assemblyName: string, v: Value)
    requires TypeSearch(e, typeName).None?
    requires assemblyName in e.byName && e.byName[assemblyName] !in e.loaded
    requires typeName in e.byName[assemblyName].types
    requires "Instance" in e.byName[assemblyName].types[typeName].statics
    requires e.byName[assemblyName].types[typeName].statics["Instance"] == Returns(v)
    requires v != Null
    ensures var a := e.byName[assemblyName];
      FactoryOutcome(e, typeName, assemblyName)
      == Step(Ok(AsFactory(v)), WithLoaded(e, a),
              [Event(Lookup, typeName), Event(NameLoad, assemblyName), Event(Lookup, typeName)])
  {
    FirstMatchAppend(e.loaded, [e.byName[assemblyName]], typeName);
  }

  /**
    Resolving again in the runtime a successful resolution left behind gives
    the same factory without loading anything.
  */
  lemma FactoryIdempotent(e: Env, typeName: string, assemblyName: string)
    requires FactoryOutcome(e, typeName, assemblyName).value.Ok?
    ensures var s := FactoryOutcome(e, typeName, assemblyName);
      FactoryOutcome(s.env, typeName, assemblyName) == Step(s.value, s.env, [Event(Lookup, typeName)])
  {
  }

  /**
    No silent switching: once resolved, later assembly loads (appended in load
    order) leave the resolution unchanged, and it still needs no load.
  */
  lemma FactoryStable(e: Env, typeName: string, assemblyName: string, later: seq<Assembly>)
    requires FactoryOutcome(e, typeName, assemblyName).value.Ok?
    ensures var s := FactoryOutcome(e, typeName, assemblyName);
      var e' := s.env.(loaded := s.env.loaded + later);
      FactoryOutcome(e', typeName, assemblyName) == Step(s.value, e', [Event(Lookup, typeName)])
  {
    var s := FactoryOutcome(e, typeName, assemblyName);
    var e' := s.env.(loaded := s.env.loaded + later);
    FirstMatchAppend(s.env.loaded, later, typeName);
    assert TypeSearch(e', typeName) == TypeSearch(s.env, typeName);
  }

  /** SqlServer is served by the built-in factory without any lookup or load. */
  lemma BuiltInTouchesNothing(e: Env, t: ProviderType)
    requires t == SqlServer
    ensures ProviderOutcome(e, t) == Step(Ok(Some(SqlClientFactoryInstance)), e, [])
  {
  }

  /** SqLite, MySql and PostgreSql go through the load-and-retry routine with fixed names. */
  lemma DynamicProviders(e: Env)
    ensures ProviderOutcome(e, SqLite) == FactoryOutcome(e, "Microsoft.Data.Sqlite.SqliteFactory", "Microsoft.Data.Sqlite")
    ensures ProviderOutcome(e, MySql) == FactoryOutcome(e, "MySql.Data.MySqlClient.MySqlClientFactory", "MySql.Data")
    ensures ProviderOutcome(e, PostgreSql) == FactoryOutcome(e, "Npgsql.NpgsqlFactory", "Npgsql")
  {
  }

  /** Every other provider type raises NotSupported without touching the runtime. */
  lemma UnsupportedTouchesNothing(e: Env, t: ProviderType)
    requires !Supported(t)
    ensures ProviderOutcome(e, t) == Step(Err(NotSupported), e, [])
  {
  }

  /** Alias transparency: an alias behaves exactly as its provider type. */
  lemma AliasTransparency(e: Env, name: string, t: ProviderType)
    requires IsAlias(name, t)
    ensures ProviderByNameOutcome(e, Some(name)) == ProviderOutcome(e, t)
  {
    AliasTable(name, t);
  }

  /** A name outside the alias table raises NotSupported without touching the runtime. */
  lemma UnknownNameTouchesNothing(e: Env, name: string)
    requires forall t: ProviderType :: !IsAlias(name, t)
    ensures ProviderByNameOutcome(e, Some(name)) == Step(Err(NotSupported), e, [])
  {
    UnknownNamesRejected(name);
  }

  /**
    PostgreSql with no Npgsql anywhere: one lookup, one load attempt by name,
    no file load, and InvalidOperation.
  */
  lemma PostgreSqlUnavailable(e: Env)
    requires TypeSearch(e, "Npgsql.NpgsqlFactory").None?
    requires "Npgsql" !in e.byName && "Npgsql" !in e.files
    ensures ProviderOutcome(e, PostgreSql)
         == Step(Err(InvalidOperation), e, [Event(Lookup, "Npgsql.NpgsqlFactory"), Event(NameLoad, "Npgsql")])
  {
  }
}
