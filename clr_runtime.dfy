/**
  An abstract model of the parts of the .NET runtime that the provider
  resolution code calls: `Type.GetType`, `AppDomain.GetAssemblies`,
  `Assembly.GetType`, `Type.InvokeMember` on a static member,
  `Assembly.Load`, `File.Exists` and `Assembly.LoadFrom`.

  What the runtime would find is fixed by three tables; the only state that
  changes is the ordered list of loaded assemblies. A ghost trace records
  every default type lookup and every load attempt, so that callers can state
  how often, and in which order, each of them happens.
*/
module ClrRuntime {
  import opened Wrappers

  /** The kinds of exception the core raises, propagates or swallows. */
  datatype Error =
    | NotSupported             // NotSupportedException: provider not handled in this build
    | InvalidOperation         // InvalidOperationException: no static Instance could be read
    | MissingConnectionString  // the plain Exception raised for a null connection string
    | NullReference            // a member access on a null reference
    | FileNotFound             // Assembly.Load or Assembly.LoadFrom found no such assembly
    | BadImageFormat           // Assembly.LoadFrom found a file that is not a loadable assembly

  /** An opaque DbProviderFactory object. */
  datatype Factory = Factory(id: string)

  /** An object reference as returned by reflection. */
  datatype Value = Null | FactoryObject(factory: Factory) | OtherObject

  /** What reading a static field or property returns, or that the read throws. */
  datatype MemberRead = Returns(value: Value) | Throws

  /** A type, seen through what reading each of its public static members gives. */
  datatype ClrType = ClrType(statics: map<string, MemberRead>)

  /**
    An assembly: its name and the types it defines, by full name. The name is
    the assembly's identity: two assemblies defining the same types are still
    two assemblies, and a load adds one only when it is not loaded yet.
  */
  datatype Assembly = Assembly(name: string, types: map<string, ClrType>)

  /** What `Assembly.LoadFrom` does with a file that exists. */
  datatype FileLoad = Image(assembly: Assembly) | BadImage

  /** Observable calls into the runtime. */
  datatype Kind = Lookup | NameLoad | PathLoad
  datatype Event = Event(kind: Kind, name: string)

  /**
    A snapshot of the runtime: the default type scope of `Type.GetType`, the
    assemblies `Assembly.Load` finds by name, the files `File.Exists` sees
    (with what `Assembly.LoadFrom` makes of them), and the assemblies loaded
    so far, in load order.
  */
  datatype Env = Env(
    defaultScope: map<string, ClrType>,
    byName: map<string, Assembly>,
    files: map<string, FileLoad>,
    loaded: seq<Assembly>)

  /** `Type.GetType(typeName, false)`: null when the default scope has no such type. */
  function DefaultType(e: Env, typeName: string): (t: Option<ClrType>)
    ensures t.Some? <==> typeName in e.defaultScope
    ensures t.Some? ==> t.value == e.defaultScope[typeName]
  {
    if typeName in e.defaultScope then Some(e.defaultScope[typeName]) else None
  }

  /** `asm.GetType(typeName, false)`. */
  function TypeIn(a: Assembly, typeName: string): (t: Option<ClrType>)
    ensures t.Some? <==> typeName in a.types
    ensures t.Some? ==> t.value == a.types[typeName]
  {
    if typeName in a.types then Some(a.types[typeName]) else None
  }

  /** The runtime after `a` has been loaded: an assembly already loaded is not added twice. */
  function WithLoaded(e: Env, a: Assembly): (e': Env)
    ensures a in e'.loaded
    ensures |e.loaded| <= |e'.loaded| <= |e.loaded| + 1 && e'.loaded[..|e.loaded|] == e.loaded
    ensures a in e.loaded ==> e' == e
    ensures e'.defaultScope == e.defaultScope && e'.byName == e.byName && e'.files == e.files
  {
    if a in e.loaded then e else e.(loaded := e.loaded + [a])
  }

  /** The number of events of kind `k` in a trace. */
  function Count(events: seq<Event>, k: Kind): nat
  {
    if events == [] then 0
    else (if events[0].kind == k then 1 else 0) + Count(events[1..], k)
  }

  lemma {:induction false} CountAppend(a: seq<Event>, b: seq<Event>, k: Kind)
    ensures Count(a + b, k) == Count(a, k) + Count(b, k)
  {
    if a == [] {
      assert a + b == b;
    } else {
      assert (a + b)[1..] == a[1..] + b;
      CountAppend(a[1..], b, k);
    }
  }

  class Runtime {
    const defaultScope: map<string, ClrType>
    const byName: map<string, Assembly>
    const files: map<string, FileLoad>
    var loaded: seq<Assembly>
    ghost var trace: seq<Event>

    constructor (defaultScope: map<string, ClrType>, byName: map<string, Assembly>,
                 files: map<string, FileLoad>, loaded: seq<Assembly>)
      ensures State() == Env(defaultScope, byName, files, loaded)
      ensures trace == []
    {
      this.defaultScope := defaultScope;
      this.byName := byName;
      this.files := files;
      this.loaded := loaded;
      this.trace := [];
    }

    function State(): Env
      reads this
    {
      Env(defaultScope, byName, files, loaded)
    }

    /** `Type.GetType(typeName, false)`. */
    method GetType(typeName: string) returns (t: Option<ClrType>)
      modifies this`trace
      ensures t == DefaultType(State(), typeName)
      ensures trace == old(trace) + [Event(Lookup, typeName)]
    {
      t := DefaultType(State(), typeName);
      trace := trace + [Event(Lookup, typeName)];
    }

    /** `AppDomain.CurrentDomain.GetAssemblies()`. */
    function GetAssemblies(): (r: seq<Assembly>)
      reads this
      ensures r == State().loaded
    {
      loaded
    }

    /** `Assembly.Load(name)`: the assembly, or the exception it throws. */
    method Load(name: string) returns (r: Result<Assembly, Error>)
      modifies this
      ensures r == if name in byName then Ok(byName[name]) else Err(FileNotFound)
      ensures State() == if r.Ok? then WithLoaded(old(State()), r.value) else old(State())
      ensures trace == old(trace) + [Event(NameLoad, name)]
    {
      if name in byName {
        r := Ok(byName[name]);
        if r.value !in loaded {
          loaded := loaded + [r.value];
        }
      } else {
        r := Err(FileNotFound);
      }
      trace := trace + [Event(NameLoad, name)];
    }

    /** `File.Exists(path)`. */
    function FileExists(path: string): (b: bool)
      ensures b <==> path in State().files
    {
      path in files
    }

    /** `Assembly.LoadFrom(path)`: the assembly in the file, or the exception it throws. */
    method LoadFrom(path: string) returns (r: Result<Assembly, Error>)
      modifies this
      ensures r == if path !in files then Err(FileNotFound)
                   else if files[path].Image? then Ok(files[path].assembly)
                   else Err(BadImageFormat)
      ensures State() == if r.Ok? then WithLoaded(old(State()), r.value) else old(State())
      ensures trace == old(trace) + [Event(PathLoad, path)]
    {
      if path !in files {
        r := Err(FileNotFound);
      } else {
        match files[path]
        case Image(a) =>
          r := Ok(a);
          if a !in loaded {
            loaded := loaded + [a];
          }
        case BadImage =>
          r := Err(BadImageFormat);
      }
      trace := trace + [Event(PathLoad, path)];
    }
  }
}
