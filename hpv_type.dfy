/**
 * HPVType: a value is an HPV type when it is one of the types the database
 * lists. The constructor's query is not modelled: the set it returns is the
 * constructor's argument. The keyword arguments the constructor reads are
 * recorded in `Class`, for plugin resolution.
 */
module HpvType {
  import opened PyValues
  import opened PluginModule

  /** The plugin class as `get` sees it: it reads four connection settings from kwargs, in this order. */
  const Class: PluginClass := PluginClass("HPVType", RequiredKwargs(["HOST", "USER", "PASSWORD", "NAME"]))

  class HPVType {
    var availableTypes: set<Cell>

    /** `HPVType(**kwargs)`, with the result of the query passed in. */
    constructor (types: set<Cell>)
      ensures availableTypes == types
    {
      availableTypes := types;
    }

    /** `check(value)`: membership, by plain equality. */
    function Check(v: Cell): (ok: bool)
      reads this
      ensures ok <==> v in availableTypes
    {
      v in availableTypes
    }

    /** `help_info()` */
    function HelpInfo(): (s: string)
      ensures s == "HPV types"
    {
      "HPV types"
    }
  }

  /** No normalisation: the text '16' is not the number 16. */
  lemma ExactMembership(h: HPVType)
    requires h.availableTypes == {Int(16)}
    ensures h.Check(Int(16)) && !h.Check(Str("16"))
  {
  }

  /** Building the plugin without all four settings is reported as the plugin not being available. */
  lemma MissingSettingNotAvailable(k: PluginKind, classes: map<string, PluginClass>, name: string, kwargs: map<string, Cell>)
    requires name != "" && name in classes && classes[name] == Class && "PASSWORD" !in kwargs
    ensures Resolve(k, classes, StrId(name), kwargs) == Err(NotAvailable(Str(name)))
  {
    assert "PASSWORD" in Class.ctor.keys;
    ResolveMissingKeyword(k, classes, name, kwargs);
  }
}
