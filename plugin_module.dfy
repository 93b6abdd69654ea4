/**
 * The plugin architecture: every plugin base class (codecs, data validators,
 * semantic types) owns an entry-point group, `get_plugins` collects the
 * classes registered under that group into a name -> class table, and `get`
 * turns a plugin id (a name, a dict with a 'type' entry, or nothing) into an
 * instance of the named class or one of several distinct errors.
 *
 * Installed entry points are a parameter: each one carries its group, its
 * name and what `load()` gives, a class or a failure. The message printed
 * for a failed load is not modelled.
 */
module PluginModule {
  import opened PyValues

  /** The direct subclasses of PluginModule whose `get` is modelled. */
  datatype PluginKind = Codec | DataValidator | SemanticType

  /** The class attribute `entry_point_group`. */
  function EntryPointGroup(k: PluginKind): string {
    match k
    case Codec => "codecs"
    case DataValidator => "data_validators"
    case SemanticType => "semantic_types"
  }

  /** `cls.__name__` */
  function ClassName(k: PluginKind): string {
    match k
    case Codec => "Codec"
    case DataValidator => "DataValidator"
    case SemanticType => "SemanticType"
  }

  /** `str(cls)` */
  function ClassRepr(k: PluginKind): string {
    match k
    case Codec => "<class 'infocentre_data_manager.plugins.codecs.base.Codec'>"
    case DataValidator => "<class 'infocentre_data_manager.plugins.data_validators.base.DataValidator'>"
    case SemanticType => "<class 'infocentre_data_manager.plugins.semantic_types.base.SemanticType'>"
  }

  /** The group `get_plugins` scans: 'data_manager.' followed by the class's own group. */
  function Group(k: PluginKind): string {
    "data_manager." + EntryPointGroup(k)
  }

  /** How a plugin class's constructor treats the keyword arguments `get` passes on. */
  datatype Constructor =
    | AnyKwargs                            // `def __init__(self, **kwargs)` that ignores them
    | NoKwargs                             // no `__init__`: `object.__init__` rejects every keyword
    | RequiredKwargs(keys: seq<string>)    // reads `kwargs[key]` for each key in turn

  datatype PluginClass = PluginClass(name: string, ctor: Constructor)

  /** A constructed plugin: its class and the keyword arguments it was built with. */
  datatype Instance = Instance(cls: PluginClass, kwargs: map<string, Cell>)

  /** An installed entry point; `target` is None when `entry_point.load()` raises. */
  datatype EntryPoint = EntryPoint(group: string, name: string, target: Option<PluginClass>)

  /** A plugin id: None, a str, a dict, or any other object with its truth value and str(). */
  datatype PluginId =
    | NoId
    | StrId(s: string)
    | DictId(entries: map<string, Cell>)
    | OtherId(truthy: bool, text: string)

  /** `bool(id)` */
  predicate Truthy(id: PluginId) {
    match id
    case NoId => false
    case StrId(s) => s != ""
    case DictId(e) => |e| > 0
    case OtherId(b, _) => b
  }

  /** `str(id)` for a falsy id. */
  function FalsyText(id: PluginId): string {
    match id
    case NoId => "None"
    case StrId(s) => s
    case DictId(_) => "{}"
    case OtherId(_, t) => t
  }

  /** The first key the constructor reads that kwargs lacks. */
  function FirstMissing(keys: seq<string>, kwargs: map<string, Cell>): (r: Option<string>)
    ensures r.None? <==> forall k :: k in keys ==> k in kwargs
    ensures r.Some? ==> r.value in keys && r.value !in kwargs
  {
    if keys == [] then None
    else if keys[0] !in kwargs then Some(keys[0])
    else FirstMissing(keys[1..], kwargs)
  }

  /** `cls(**kwargs)` */
  function Construct(c: PluginClass, kwargs: map<string, Cell>): (r: Result<Instance>)
    ensures r.Ok? ==> r.value == Instance(c, kwargs)
    ensures r.Err? ==> r.error.TypeError? || r.error.KeyError?
  {
    match c.ctor
    case AnyKwargs => Ok(Instance(c, kwargs))
    case NoKwargs => if |kwargs| == 0 then Ok(Instance(c, kwargs)) else Err(TypeError)
    case RequiredKwargs(keys) =>
      match FirstMissing(keys, kwargs)
      case None => Ok(Instance(c, kwargs))
      case Some(k) => Err(KeyError(k))
  }

  /** The class table `get_plugins` returns after scanning eps for one group. */
  function Registry(eps: seq<EntryPoint>, group: string): map<string, PluginClass> {
    if eps == [] then map[]
    else
      var r := Registry(eps[..|eps| - 1], group);
      var e := eps[|eps| - 1];
      if e.group == group && e.target.Some? then r[e.name := e.target.value] else r
  }

  /** `get_plugins()` over the installed entry points: one pass, later entries overwrite earlier ones. */
  method GetPlugins(k: PluginKind, installed: seq<EntryPoint>) returns (classes: map<string, PluginClass>)
    ensures classes == Registry(installed, Group(k))
  {
    var group := Group(k);
    classes := map[];
    var i := 0;
    while i < |installed|
      invariant 0 <= i <= |installed|
      invariant classes == Registry(installed[..i], group)
    {
      assert installed[..i + 1][..i] == installed[..i];
      var e := installed[i];
      if e.group == group {
        match e.target
        case Some(c) =>
          classes := classes[e.name := c];
        case None =>
      }
      i := i + 1;
    }
    assert installed[..i] == installed;
  }

  /** A name is in the table iff some entry of the group with that name loaded. */
  lemma {:induction false} RegistryKeys(eps: seq<EntryPoint>, group: string, name: string)
    ensures name in Registry(eps, group) <==>
      exists i :: 0 <= i < |eps| && eps[i].group == group && eps[i].name == name && eps[i].target.Some?
    decreases |eps|
  {
    if eps != [] {
      var p := eps[..|eps| - 1];
      RegistryKeys(p, group, name);
      if exists i :: 0 <= i < |p| && p[i].group == group && p[i].name == name && p[i].target.Some? {
        var i :| 0 <= i < |p| && p[i].group == group && p[i].name == name && p[i].target.Some?;
        assert eps[i] == p[i];
      }
      if exists i :: 0 <= i < |eps| && eps[i].group == group && eps[i].name == name && eps[i].target.Some? {
        var i :| 0 <= i < |eps| && eps[i].group == group && eps[i].name == name && eps[i].target.Some?;
        if i < |p| {
          assert p[i] == eps[i];
        }
      }
    }
  }

  /**
   * The class registered under a name is the one from the last entry of the
   * group with that name that loaded; entries that failed to load do not
   * remove an earlier class.
   */
  lemma {:induction false} RegistryLastWins(eps: seq<EntryPoint>, group: string, name: string)
    requires name in Registry(eps, group)
    ensures exists i :: (0 <= i < |eps| && eps[i].group == group && eps[i].name == name && eps[i].target == Some(Registry(eps, group)[name])
      && forall j :: i < j < |eps| && eps[j].group == group && eps[j].name == name ==> eps[j].target.None?)
    decreases |eps|
  {
    var p := eps[..|eps| - 1];
    var e := eps[|eps| - 1];
    if e.group == group && e.target.Some? && e.name == name {
      assert eps[|eps| - 1].target == Some(Registry(eps, group)[name]);
    } else {
      RegistryLastWins(p, group, name);
      var i :| 0 <= i < |p| && p[i].group == group && p[i].name == name && p[i].target == Some(Registry(p, group)[name])
        && forall j :: i < j < |p| && p[j].group == group && p[j].name == name ==> p[j].target.None?;
      assert eps[i] == p[i];
      assert forall j :: i < j < |p| ==> eps[j] == p[j];
    }
  }

  /** `_get_default_handler`: the base class has no default and always raises. */
  function DefaultHandler(k: PluginKind, kwargs: map<string, Cell>): (r: Result<Instance>)
    ensures r.Err? && r.error.NotImplementedError?
  {
    Err(NotImplementedError("No default handlers are available for " + ClassRepr(k)))
  }

  /** The error for a key with no loadable class; the key appears as `str(key)`, so a missing 'type' reads "None". */
  function NotAvailable(key: Cell): PyError {
    NotImplementedError("Plugin \"" + PyStr(key) + "\" is not available. Check if the plugin (or its dependencies) are installed.")
  }

  /** The registry key `get` looks up for a truthy str or dict id; None when a dict has no 'type'. */
  function FetcherId(id: PluginId): Cell
    requires id.StrId? || id.DictId?
  {
    match id
    case StrId(s) => Str(s)
    case DictId(e) => if "type" in e then e["type"] else Null
  }

  /** `class_dict[fetcher_id](**kwargs)`, where a KeyError from either step reads as "not available". */
  function Instantiate(classes: map<string, PluginClass>, key: Cell, kwargs: map<string, Cell>): Result<Instance> {
    if key.Str? && key.s in classes then
      match Construct(classes[key.s], kwargs)
      case Ok(x) => Ok(x)
      case Err(e) => if e.KeyError? then Err(NotAvailable(key)) else Err(e)
    else Err(NotAvailable(key))
  }

  /** `cls.get(id, **kwargs)` against the class table `classes`. */
  function Resolve(k: PluginKind, classes: map<string, PluginClass>, id: PluginId, kwargs: map<string, Cell>): Result<Instance> {
    if Truthy(id) then
      if id.OtherId? then Err(ValueError("\"id\" must be a string or a dict"))
      else Instantiate(classes, FetcherId(id), kwargs)
    else
      match DefaultHandler(k, kwargs)
      case Ok(x) => Ok(x)
      case Err(e) =>
        if e.NotImplementedError? then Err(NotImplementedError("There is no default " + ClassName(k) + " for " + FalsyText(id)))
        else Err(e)
  }

  /** `cls.get(id, **kwargs)`: scan the installed entry points, then resolve the id. */
  method Get(k: PluginKind, installed: seq<EntryPoint>, id: PluginId, kwargs: map<string, Cell>) returns (r: Result<Instance>)
    ensures r == Resolve(k, Registry(installed, Group(k)), id, kwargs)
  {
    var classes := GetPlugins(k, installed);
    r := Resolve(k, classes, id, kwargs);
  }

  /** A registered name gives its class built with the given keyword arguments, when the constructor accepts them. */
  lemma ResolveRegistered(k: PluginKind, classes: map<string, PluginClass>, name: string, kwargs: map<string, Cell>)
    requires name != "" && name in classes && Construct(classes[name], kwargs).Ok?
    ensures Resolve(k, classes, StrId(name), kwargs) == Ok(Instance(classes[name], kwargs))
  {
    ResolveName(k, classes, name, kwargs);
  }

  /** A dict id is looked up by its 'type' entry, exactly as that name would be. */
  lemma ResolveDictType(k: PluginKind, classes: map<string, PluginClass>, e: map<string, Cell>, name: string, kwargs: map<string, Cell>)
    requires "type" in e && e["type"] == Str(name) && name != ""
    ensures Resolve(k, classes, DictId(e), kwargs) == Resolve(k, classes, StrId(name), kwargs)
  {
    assert "type" in e.Keys;
    assert Truthy(DictId(e)) && Truthy(StrId(name));
    assert FetcherId(DictId(e)) == FetcherId(StrId(name));
  }

  /** A non-empty dict without 'type' looks up None, which no entry point can be named. */
  lemma ResolveDictWithoutType(k: PluginKind, classes: map<string, PluginClass>, e: map<string, Cell>, kwargs: map<string, Cell>)
    requires |e| > 0 && "type" !in e
    ensures Resolve(k, classes, DictId(e), kwargs) == Err(NotAvailable(Null))
  {
    assert Truthy(DictId(e));
  }

  /** A truthy id that is neither a str nor a dict raises ValueError, which `get` does not convert. */
  lemma ResolveOtherId(k: PluginKind, classes: map<string, PluginClass>, text: string, kwargs: map<string, Cell>)
    ensures Resolve(k, classes, OtherId(true, text), kwargs) == Err(ValueError("\"id\" must be a string or a dict"))
  {
    assert Truthy(OtherId(true, text));
  }

  /** An unregistered name raises NotImplementedError with the name in its message. */
  lemma ResolveUnregistered(k: PluginKind, classes: map<string, PluginClass>, name: string, kwargs: map<string, Cell>)
    requires name != "" && name !in classes
    ensures Resolve(k, classes, StrId(name), kwargs) ==
      Err(NotImplementedError("Plugin \"" + name + "\" is not available. Check if the plugin (or its dependencies) are installed."))
  {
    ResolveName(k, classes, name, kwargs);
    assert Instantiate(classes, Str(name), kwargs) == Err(NotAvailable(Str(name)));
  }

  /** Every falsy id goes to the default handler, which fails, and the failure is re-raised naming the class and the id. */
  lemma ResolveFalsy(k: PluginKind, classes: map<string, PluginClass>, id: PluginId, kwargs: map<string, Cell>)
    requires !Truthy(id)
    ensures Resolve(k, classes, id, kwargs) == Err(NotImplementedError("There is no default " + ClassName(k) + " for " + FalsyText(id)))
  {
  }

  /**
   * A KeyError raised inside the constructor (a missing required keyword) is
   * reported as the plugin not being available.
   */
  lemma ResolveMissingKeyword(k: PluginKind, classes: map<string, PluginClass>, name: string, kwargs: map<string, Cell>)
    requires name != "" && name in classes
    requires classes[name].ctor.RequiredKwargs? && FirstMissing(classes[name].ctor.keys, kwargs).Some?
    ensures Resolve(k, classes, StrId(name), kwargs) == Err(NotAvailable(Str(name)))
  {
    ResolveName(k, classes, name, kwargs);
    var c := classes[name];
    var missing := FirstMissing(c.ctor.keys, kwargs).value;
    assert Construct(c, kwargs) == Err(KeyError(missing));
  }

  /** A non-empty name is looked up as itself. */
  lemma ResolveName(k: PluginKind, classes: map<string, PluginClass>, name: string, kwargs: map<string, Cell>)
    requires name != ""
    ensures Resolve(k, classes, StrId(name), kwargs) == Instantiate(classes, Str(name), kwargs)
  {
    assert Truthy(StrId(name));
  }

  /** A TypeError raised by the constructor (keywords it does not take) is not converted. */
  lemma ResolveRejectedKeywords(k: PluginKind, classes: map<string, PluginClass>, name: string, kwargs: map<string, Cell>)
    requires name != "" && name in classes
    requires classes[name].ctor.NoKwargs? && |kwargs| > 0
    ensures Resolve(k, classes, StrId(name), kwargs) == Err(TypeError)
  {
    ResolveName(k, classes, name, kwargs);
  }

  /** `get` succeeds exactly for a truthy str or dict id whose key is registered and whose constructor accepts kwargs. */
  lemma ResolveSucceeds(k: PluginKind, classes: map<string, PluginClass>, id: PluginId, kwargs: map<string, Cell>)
    ensures Resolve(k, classes, id, kwargs).Ok? <==>
      Truthy(id) && (id.StrId? || id.DictId?) && FetcherId(id).Str? && FetcherId(id).s in classes
      && Construct(classes[FetcherId(id).s], kwargs).Ok?
  {
    if Truthy(id) && !id.OtherId? {
      InstantiateSucceeds(classes, FetcherId(id), kwargs);
    }
  }

  lemma InstantiateSucceeds(classes: map<string, PluginClass>, key: Cell, kwargs: map<string, Cell>)
    ensures Instantiate(classes, key, kwargs).Ok? <==> key.Str? && key.s in classes && Construct(classes[key.s], kwargs).Ok?
  {
  }

  /** The entry points the package declares; none of the three classes exists under the declared name. */
  const PackagedEntryPoints: seq<EntryPoint> := [
    EntryPoint("data_manager.codecs", "excel", None),
    EntryPoint("data_manager.codecs", "mysql", None),
    EntryPoint("data_manager.data_validators", "type", None)
  ]

  /** With only the packaged entry points installed, every table is empty and `Codec.get('excel')` fails. */
  lemma PackagedRegistriesEmpty(kwargs: map<string, Cell>)
    ensures forall k :: Registry(PackagedEntryPoints, Group(k)) == map[]
    ensures Resolve(Codec, Registry(PackagedEntryPoints, Group(Codec)), StrId("excel"), kwargs) == Err(NotAvailable(Str("excel")))
  {
    forall k ensures Registry(PackagedEntryPoints, Group(k)) == map[] {
      NothingLoaded(PackagedEntryPoints, Group(k));
    }
    NothingLoaded(PackagedEntryPoints, Group(Codec));
    ResolveName(Codec, map[], "excel", kwargs);
  }

  /** When no entry point loads, the table is empty. */
  lemma {:induction false} NothingLoaded(eps: seq<EntryPoint>, group: string)
    requires forall i :: 0 <= i < |eps| ==> eps[i].target.None?
    ensures Registry(eps, group) == map[]
    decreases |eps|
  {
    if eps != [] {
      NothingLoaded(eps[..|eps| - 1], group);
    }
  }
}
